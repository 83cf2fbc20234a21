/** The videos gateway: list, read, rename and delete go through the shared
    client; upload builds its own multipart request with the raw token and
    classifies the response itself. */
module VideosApi {
  import opened Common
  import opened Types
  import opened Http
  import opened Client

  const NotAuthenticated: string := "No autenticado"

  function VideosPath(projectId: string): string {
    "/api/v1/projects/" + projectId + "/videos"
  }

  function VideoPath(projectId: string, videoId: int): string {
    VideosPath(projectId) + "/" + IntToString(videoId)
  }

  /** The query `URLSearchParams` renders, keys in insertion order. */
  function ListQuery(page: int, size: int, sortBy: string, sortDirection: SortDirection): string {
    "page=" + IntToString(page) + "&size=" + IntToString(size) +
    "&sortBy=" + sortBy + "&sortDirection=" + sortDirection.Text()
  }

  /** `getAll`: page 0, size 20, newest first unless told otherwise. */
  function GetAll(o: GetVideosOptions): (c: Call)
    ensures c.GetCall? && VideosPath(o.projectId) + "?" <= c.endpoint
  {
    GetCall(VideosPath(o.projectId) + "?" +
            ListQuery(o.page.GetOr(0), o.size.GetOr(20), o.sortBy.GetOr("createdAt"), o.sortDirection.GetOr(Desc)))
  }

  /** With only the project given, the query is the default one. */
  lemma DefaultVideosCall(projectId: string)
    ensures GetAll(GetVideosOptions(projectId, None, None, None, None)) ==
      GetCall(VideosPath(projectId) + "?" + ListQuery(0, 20, "createdAt", Desc))
    ensures ListQuery(0, 20, "createdAt", Desc) ==
      "page=" + "0" + "&size=" + "20" + "&sortBy=" + "createdAt" + "&sortDirection=" + "DESC"
  {
    assert Digit(0) == '0' && Digit(2) == '2';
    assert IntToString(0) == "0";
    assert IntToString(20) == NatToString(2) + [Digit(0)] == "20";
    assert Desc.Text() == "DESC";
  }

  function GetById(projectId: string, videoId: int): Call {
    GetCall(VideoPath(projectId, videoId))
  }

  /** `update` sends `{ title }` with PUT. */
  function Update(projectId: string, videoId: int, title: string): Call {
    PutCall(VideoPath(projectId, videoId), TitleBody(title))
  }

  function Delete(projectId: string, videoId: int): Call {
    DeleteCall(VideoPath(projectId, videoId))
  }

  /** What each operation puts on the wire: read and delete send no body,
      rename sends `{ title }` with PUT. */
  lemma GatewayRequests(projectId: string, videoId: int, title: string)
    ensures InitOf(GetById(projectId, videoId)) == RequestInit(GET, map[], NoBody)
    ensures InitOf(Update(projectId, videoId, title)) == RequestInit(PUT, map[], JsonOf(TitleBody(title)))
    ensures InitOf(Delete(projectId, videoId)) == RequestInit(DELETE, map[], NoBody)
  {
  }

  /** The rename and delete calls of one video address the same resource,
      and the video's resource lies under its project's list. */
  lemma VideoCallsShareResource(projectId: string, videoId: int, title: string)
    ensures GetById(projectId, videoId).endpoint == Update(projectId, videoId, title).endpoint
                                                 == Delete(projectId, videoId).endpoint
    ensures VideosPath(projectId) + "/" <= Delete(projectId, videoId).endpoint
  {
  }

  // ---------------------------------------------------------------------
  // Upload

  /** The multipart request: only an Authorization header (the browser sets
      the multipart content type), the file under "video" then the title. */
  function UploadRequest(projectId: string, token: string, data: UploadVideoDto): (req: Request)
    ensures req.verb == POST && req.headers.Keys == {"Authorization"}
    ensures req.url == ApiBase + VideosPath(projectId)
    ensures req.headers["Authorization"] == "Bearer " + token
    ensures req.body == Multipart([FilePart("video", data.video), TextPart("title", data.title)])
  {
    Request(ApiBase + VideosPath(projectId), POST,
            map["Authorization" := "Bearer " + token],
            Multipart([FilePart("video", data.video), TextPart("title", data.title)]))
  }

  /** `"<field>: <msg>"` for each entry, joined with ", ". */
  function FieldErrorsMessage(fieldErrors: seq<FieldError>): string {
    Join(seq(|fieldErrors|, i requires 0 <= i < |fieldErrors| => FieldErrorLine(fieldErrors[i])), ", ")
  }

  function FieldErrorLine(e: FieldError): (line: string)
    ensures line != ""
  {
    e.field + ": " + e.msg
  }

  /** The summary is empty exactly when there are no field errors, and it
      names every field with its message. */
  lemma FieldErrorsMessageLists(fieldErrors: seq<FieldError>)
    ensures FieldErrorsMessage(fieldErrors) == "" <==> fieldErrors == []
    ensures forall i :: 0 <= i < |fieldErrors| ==>
      Contains(FieldErrorsMessage(fieldErrors), fieldErrors[i].field + ": " + fieldErrors[i].msg)
  {
    var lines := seq(|fieldErrors|, i requires 0 <= i < |fieldErrors| => FieldErrorLine(fieldErrors[i]));
    if fieldErrors != [] {
      JoinStartsWithFirst(lines, ", ");
    }
    forall i | 0 <= i < |fieldErrors|
      ensures Contains(FieldErrorsMessage(fieldErrors), fieldErrors[i].field + ": " + fieldErrors[i].msg)
    {
      JoinContainsParts(lines, ", ", i);
    }
  }

  /** How `upload` turns the response into its result. The 401 check comes
      before the body is read; the body, read as JSON or `{}`, then decides
      the message of each error status. */
  function ClassifyUpload(resp: Response, projectId: string): (r: Result<Json, Thrown>)
    ensures r.Err? <==> !IsOk(resp.status)
    ensures r.Ok? ==> r.value == resp.json.GetOr(EmptyObject)
    ensures r.Err? ==> r.error.ApiError? && r.error.status == resp.status && r.error.message != ""
    ensures r.Err? ==> (r.error.fieldErrors.Some? <==> resp.status == 400)
    ensures resp.status == 401 ==> r == Err(ApiError(401, SessionExpiredMessage, None))
    ensures resp.status == 400 ==>
      var fe := resp.json.GetOr(EmptyObject).fieldErrors.GetOr([]);
      r.error.fieldErrors == Some(fe) &&
      (fe != [] ==> r.error.message == FieldErrorsMessage(fe)) &&
      (fe == [] ==> r.error.message == MessageOr(resp.json.GetOr(EmptyObject), "Error de validación"))
    ensures resp.status == 403 ==>
      r.error.message == MessageOr(resp.json.GetOr(EmptyObject), "No tienes permiso para crear videos en este proyecto")
    ensures resp.status == 404 ==>
      r.error.message == MessageOr(resp.json.GetOr(EmptyObject), "Proyecto no encontrado con id: " + projectId)
    ensures !IsOk(resp.status) && resp.status !in {400, 401, 403, 404} ==>
      r.error.message == MessageOr(resp.json.GetOr(EmptyObject), "Error al subir video (" + IntToString(resp.status) + ")")
  {
    if resp.status == 401 then
      Err(ApiError(401, SessionExpiredMessage, None))
    else
      var data := resp.json.GetOr(EmptyObject);
      if resp.status == 400 then
        var fieldErrors := data.fieldErrors.GetOr([]);
        FieldErrorsMessageLists(fieldErrors);
        var summary := FieldErrorsMessage(fieldErrors);
        Err(ApiError(400, if summary != "" then summary else MessageOr(data, "Error de validación"), Some(fieldErrors)))
      else if resp.status == 403 then
        Err(ApiError(403, MessageOr(data, "No tienes permiso para crear videos en este proyecto"), None))
      else if resp.status == 404 then
        Err(ApiError(404, MessageOr(data, "Proyecto no encontrado con id: " + projectId), None))
      else if !IsOk(resp.status) then
        Err(ApiError(resp.status, MessageOr(data, "Error al subir video (" + IntToString(resp.status) + ")"), None))
      else
        Ok(data)
  }

  /** `upload` as a function of the world. Without a token nothing is sent;
      a network failure rejects with fetch's TypeError; a 401 also removes
      the token entry. */
  function UploadSpec(w: World, server: Server, projectId: string, data: UploadVideoDto): Step<Result<Json, Thrown>> {
    if !HasToken(w.token) then
      Step(w, Err(ErrorInstance(NotAuthenticated)))
    else
      var st := Send(w, server, UploadRequest(projectId, w.token.value, data));
      match st.result
      case NetworkFailure => Step(st.world, Err(ErrorInstance(FailedToFetch)))
      case Received(resp) =>
        Step(if resp.status == 401 then st.world.(token := None) else st.world,
             ClassifyUpload(resp, projectId))
  }

  method Upload(host: Browser, projectId: string, data: UploadVideoDto) returns (r: Result<Json, Thrown>)
    modifies host
    ensures Step(host.View(), r) == UploadSpec(old(host.View()), host.server, projectId, data)
  {
    if host.token.None? || host.token.value == "" {
      return Err(ErrorInstance(NotAuthenticated));
    }
    var req := UploadRequest(projectId, host.token.value, data);
    var reply := host.Fetch(req);
    match reply {
      case NetworkFailure =>
        r := Err(ErrorInstance(FailedToFetch));
      case Received(resp) =>
        if resp.status == 401 {
          host.RemoveToken();
        }
        r := ClassifyUpload(resp, projectId);
    }
  }

  // ---------------------------------------------------------------------
  // Properties of upload

  /** Without a token, upload sends nothing, changes nothing, and rejects
      with an Error instance (which has no status). */
  lemma UploadNeedsToken(w: World, server: Server, projectId: string, data: UploadVideoDto)
    requires !HasToken(w.token)
    ensures UploadSpec(w, server, projectId, data) == Step(w, Err(ErrorInstance(NotAuthenticated)))
    ensures !UploadSpec(w, server, projectId, data).result.error.IsUnauthorized()
  {
  }

  /** With a token, upload sends exactly one request carrying that token as
      a bearer credential and no JSON content type, and only a 401 clears it. */
  lemma UploadSendsOne(w: World, server: Server, projectId: string, data: UploadVideoDto)
    requires HasToken(w.token)
    ensures var st := UploadSpec(w, server, projectId, data);
      && st.world.sent == w.sent + [UploadRequest(projectId, w.token.value, data)]
      && st.world.events == w.events
      && st.world.sent[|w.sent|].headers == map["Authorization" := "Bearer " + w.token.value]
      && "Content-Type" !in st.world.sent[|w.sent|].headers
      && (st.world.token == None <==> st.result.Err? && st.result.error.IsUnauthorized())
  {
  }
}
