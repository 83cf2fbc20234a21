/** The videos hook: one page of a project's videos, the upload validation
    and title derivation, and the upload / delete / download commands with
    their notifications. */
module UseVideos {
  import opened Common
  import opened Types
  import opened Http
  import opened Client
  import VideosApi

  // ---------------------------------------------------------------------
  // File validation

  /** `name.toLowerCase().slice(name.lastIndexOf("."))`: from the last dot
      on, lower-cased; with no dot, `slice(-1)` keeps the last character. */
  function FileExtension(name: string): (ext: string)
    ensures LastIndexOf(name, '.') >= 0 ==> |ext| >= 1 && ext[0] == '.'
    ensures LastIndexOf(name, '.') < 0 ==> |ext| == (if name == [] then 0 else 1)
  {
    SliceFrom(ToLower(name), LastIndexOf(name, '.'))
  }

  /** A name that ends in a dot followed by dot-free text has that suffix,
      lower-cased, as its extension. */
  lemma ExtensionOfSuffix(base: string, e: string)
    requires |e| >= 1 && e[0] == '.'
    requires forall j :: 1 <= j < |e| ==> e[j] != '.'
    ensures FileExtension(base + e) == ToLower(e)
  {
    var name := base + e;
    var k := LastIndexOf(name, '.');
    assert name[|base|] == '.';
    assert forall j :: |base| < j < |name| ==> name[j] == e[j - |base|];
    assert k == |base|;
    assert ToLower(name)[k..] == ToLower(e);
  }

  predicate FormatAllowed(file: VideoFile) {
    file.mimeType in AllowedFormats || FileExtension(file.name) in AllowedExtensions
  }

  datatype Validation = Valid | Invalid(error: string)

  const FormatMessage: string := ": Solo se permiten archivos mp4, mov, avi, webm, mkv"
  const SizeMessage: string := ": El tamaño máximo permitido es 200MB"

  /** `validateFile`: the format is checked first, then the size. */
  function ValidateFile(file: VideoFile): (v: Validation)
    ensures v.Valid? <==> FormatAllowed(file) && file.size <= MaxFileSize
    ensures v.Invalid? ==> file.name <= v.error
    ensures !FormatAllowed(file) ==> v == Invalid(file.name + FormatMessage)
    ensures FormatAllowed(file) && file.size > MaxFileSize ==> v == Invalid(file.name + SizeMessage)
  {
    if !FormatAllowed(file) then Invalid(file.name + FormatMessage)
    else if file.size > MaxFileSize then Invalid(file.name + SizeMessage)
    else Valid
  }

  /** The size limit is inclusive: exactly 200 MiB passes, one byte more
      does not; and an upper-case allowed extension passes whatever the MIME
      type says. */
  lemma SizeLimitAndCase(base: string, mimeType: string)
    ensures ValidateFile(VideoFile(base + ".MP4", mimeType, 209715200)).Valid?
    ensures ValidateFile(VideoFile(base + ".MP4", mimeType, 209715201)) ==
      Invalid(base + ".MP4" + SizeMessage)
  {
    ExtensionOfSuffix(base, ".MP4");
    assert ToLower(".MP4") == ".mp4";
  }

  // ---------------------------------------------------------------------
  // Title from the file name

  /** `/\.[^/.]+$/` matches at `i`: a dot followed by at least one
      character, none of them a dot or a slash, up to the end. */
  predicate ExtensionAt(name: string, i: int) {
    0 <= i && i + 1 < |name| && name[i] == '.' &&
    forall j :: i < j < |name| ==> name[j] != '.' && name[j] != '/'
  }

  /** `name.replace(/\.[^/.]+$/, "")` */
  function TitleFromName(name: string): (title: string)
    ensures |title| <= |name| && title == name[..|title|]
    ensures title != name ==> ExtensionAt(name, |title|)
    ensures title == name ==> forall i :: 0 <= i < |name| ==> !ExtensionAt(name, i)
  {
    var k := LastIndexOf(name, '.');
    if k >= 0 && k + 1 < |name| && forall j :: k < j < |name| ==> name[j] != '/' then
      name[..k]
    else
      name
  }

  /** The pattern can match in at most one place. */
  lemma ExtensionAtUnique(name: string, i: int, i2: int)
    requires ExtensionAt(name, i) && ExtensionAt(name, i2)
    ensures i == i2
  {
    assert name[i] == '.' && name[i2] == '.';
  }

  /** Stripping a dot-free, slash-free extension gives back the base. */
  lemma TitleOfSuffixedName(base: string, ext: string)
    requires |ext| >= 1
    requires forall j :: 0 <= j < |ext| ==> ext[j] != '.' && ext[j] != '/'
    ensures TitleFromName(base + "." + ext) == base
  {
    var name := base + "." + ext;
    assert ExtensionAt(name, |base|);
    var t := TitleFromName(name);
    assert t != name;
    ExtensionAtUnique(name, |t|, |base|);
    assert name[..|base|] == base;
  }

  // ---------------------------------------------------------------------
  // Hook state and the value-level behaviour of each operation

  datatype VideosState = VideosState(
    videos: seq<Video>,
    loading: bool,
    error: Option<string>,
    totalPages: int,
    totalElements: int,
    isUploading: bool,
    isDeleting: bool)

  const Initial: VideosState := VideosState([], false, None, 0, 0, false, false)

  /** Hook state and browser state after an operation (none of them throws). */
  datatype After = After(state: VideosState, world: World)

  const NoProject: string := "No hay proyecto seleccionado"
  const LoadFailed: string := "Error al cargar videos"
  const LoginPath: string := "/login"
  const SessionToast: Toast :=
    Toast("Sesión expirada", "Tu sesión ha expirado, por favor inicia sesión de nuevo", true)
  /** The TypeError raised when the list response has no `data` object. */
  const MissingData: string := "Cannot read properties of undefined (reading 'content')"

  /** `!projectId` is false exactly for a non-empty id. */
  predicate HasProject(projectId: Option<string>) {
    projectId.Some? && projectId.value != ""
  }

  function ListCall(projectId: string, page: int, size: int): Call {
    VideosApi.GetAll(GetVideosOptions(projectId, Some(page), Some(size), Some("createdAt"), Some(Desc)))
  }

  function DecodeVideos(r: Result<Payload, Thrown>): Result<VideosResponse, Thrown> {
    match r
    case Err(e) => Err(e)
    case Ok(p) =>
      if p.Parsed? && p.json.asVideosResponse.Some? then Ok(p.json.asVideosResponse.value)
      else Err(ErrorInstance(MissingData))
  }

  /** The catch of `fetchVideos`: the error message comes from Error
      instances only; a 401 then shows the session toast and goes to login. */
  function FetchFailed(s: VideosState, w: World, e: Thrown): After {
    var msg := if e.ErrorInstance? then e.message else LoadFailed;
    var s1 := s.(error := Some(msg));
    if e.IsUnauthorized() then After(s1, WithNavigation(WithToast(w, SessionToast), LoginPath))
    else After(s1, WithToast(w, Toast(LoadFailed, msg, true)))
  }

  /** `fetchVideos` */
  function FetchSpec(s: VideosState, w: World, server: Server, baseUrl: string,
                     projectId: Option<string>, page: int, size: int): After {
    if !HasProject(projectId) then
      After(s.(error := Some(NoProject)), w)
    else
      var s1 := s.(loading := true, error := None);
      var st := CallSpec(baseUrl, ListCall(projectId.value, page, size), w, server);
      var a := match DecodeVideos(st.result)
               case Ok(resp) =>
                 After(s1.(videos := resp.data.content, totalPages := resp.data.totalPages,
                           totalElements := resp.data.totalElements), st.world)
               case Err(e) => FetchFailed(s1, st.world, e);
      After(a.state.(loading := false), a.world)
  }

  /** The catch shared by upload and delete: 401 → session toast then
      login; otherwise a toast with the error's message. */
  function CommandFailed(w: World, e: Thrown, title: string): World {
    if e.IsUnauthorized() then WithNavigation(WithToast(w, SessionToast), LoginPath)
    else WithToast(w, Toast(title, e.message, true))
  }

  function UploadedToast(file: VideoFile): Toast {
    Toast("Video subido", file.name + " se ha subido correctamente", false)
  }

  const MustSelectProject: Toast := Toast("Error", "Debes seleccionar un proyecto para subir videos", true)

  /** `uploadVideo(file)` */
  function UploadSpec(s: VideosState, w: World, server: Server, baseUrl: string,
                      projectId: Option<string>, page: int, size: int, file: VideoFile): After {
    if !HasProject(projectId) then
      After(s, WithToast(w, MustSelectProject))
    else if ValidateFile(file).Invalid? then
      After(s, WithToast(w, Toast("Archivo no válido", ValidateFile(file).error, true)))
    else
      var s1 := s.(isUploading := true);
      var st := VideosApi.UploadSpec(w, server, projectId.value, UploadVideoDto(file, TitleFromName(file.name)));
      var a := match st.result
               case Ok(_) => FetchSpec(s1, WithToast(st.world, UploadedToast(file)), server, baseUrl, projectId, page, size)
               case Err(e) => After(s1, CommandFailed(st.world, e, "Error al subir video"));
      After(a.state.(isUploading := false), a.world)
  }

  const DeletedToast: Toast := Toast("Video eliminado", "El video ha sido removido correctamente", false)

  /** `deleteVideo(videoId)` */
  function DeleteSpec(s: VideosState, w: World, server: Server, baseUrl: string,
                      projectId: Option<string>, page: int, size: int, videoId: int): After {
    if !HasProject(projectId) then
      After(s, w)
    else
      var s1 := s.(isDeleting := true);
      var st := CallSpec(baseUrl, VideosApi.Delete(projectId.value, videoId), w, server);
      var a := match st.result
               case Ok(_) => FetchSpec(s1, WithToast(st.world, DeletedToast), server, baseUrl, projectId, page, size)
               case Err(e) => After(s1, CommandFailed(st.world, e, "Error al eliminar video"));
      After(a.state.(isDeleting := false), a.world)
  }

  // ---------------------------------------------------------------------
  // The hook as an object

  class VideosController {
    var videos: seq<Video>
    var loading: bool
    var error: Option<string>
    var totalPages: int
    var totalElements: int
    var isUploading: bool
    var isDeleting: bool
    const projectId: Option<string>
    const page: int
    const size: int
    const autoFetch: bool
    const client: ApiClient

    function State(): VideosState
      reads this
    {
      VideosState(videos, loading, error, totalPages, totalElements, isUploading, isDeleting)
    }

    constructor (client: ApiClient, projectId: Option<string>, page: int := 0, size: int := 20, autoFetch: bool := true)
      ensures State() == Initial
      ensures this.client == client && this.projectId == projectId
      ensures this.page == page && this.size == size && this.autoFetch == autoFetch
    {
      this.client := client;
      this.projectId := projectId;
      this.page := page;
      this.size := size;
      this.autoFetch := autoFetch;
      videos := [];
      loading := false;
      error := None;
      totalPages := 0;
      totalElements := 0;
      isUploading := false;
      isDeleting := false;
    }

    method FetchVideos()
      modifies this, client.host
      ensures After(State(), client.host.View()) ==
        FetchSpec(old(State()), old(client.host.View()), client.host.server, client.baseUrl, projectId, page, size)
    {
      if projectId.None? || projectId.value == "" {
        error := Some(NoProject);
        return;
      }
      loading := true;
      error := None;
      var r := client.Perform(ListCall(projectId.value, page, size));
      match DecodeVideos(r) {
        case Ok(resp) =>
          videos := resp.data.content;
          totalPages := resp.data.totalPages;
          totalElements := resp.data.totalElements;
        case Err(e) =>
          var msg := if e.ErrorInstance? then e.message else LoadFailed;
          error := Some(msg);
          if e.ApiError? && e.status == 401 {
            client.host.Notify(SessionToast);
            client.host.Navigate(LoginPath);
          } else {
            client.host.Notify(Toast(LoadFailed, msg, true));
          }
      }
      loading := false;
    }

    /** The catch of upload and delete. */
    method ReportFailure(e: Thrown, title: string)
      modifies client.host
      ensures client.host.View() == CommandFailed(old(client.host.View()), e, title)
    {
      if e.ApiError? && e.status == 401 {
        client.host.Notify(SessionToast);
        client.host.Navigate(LoginPath);
      } else {
        client.host.Notify(Toast(title, e.message, true));
      }
    }

    method UploadVideo(file: VideoFile)
      modifies this, client.host
      ensures After(State(), client.host.View()) ==
        UploadSpec(old(State()), old(client.host.View()), client.host.server, client.baseUrl, projectId, page, size, file)
    {
      if projectId.None? || projectId.value == "" {
        client.host.Notify(MustSelectProject);
        return;
      }
      var validation := ValidateFile(file);
      if validation.Invalid? {
        client.host.Notify(Toast("Archivo no válido", validation.error, true));
        return;
      }
      isUploading := true;
      var r := VideosApi.Upload(client.host, projectId.value, UploadVideoDto(file, TitleFromName(file.name)));
      match r {
        case Ok(_) =>
          client.host.Notify(UploadedToast(file));
          FetchVideos();
        case Err(e) =>
          ReportFailure(e, "Error al subir video");
      }
      isUploading := false;
    }

    method DeleteVideo(videoId: int)
      modifies this, client.host
      ensures After(State(), client.host.View()) ==
        DeleteSpec(old(State()), old(client.host.View()), client.host.server, client.baseUrl, projectId, page, size, videoId)
    {
      if projectId.None? || projectId.value == "" {
        return;
      }
      isDeleting := true;
      var r := client.Perform(VideosApi.Delete(projectId.value, videoId));
      match r {
        case Ok(_) =>
          client.host.Notify(DeletedToast);
          FetchVideos();
        case Err(e) =>
          ReportFailure(e, "Error al eliminar video");
      }
      isDeleting := false;
    }

    /** `downloadVideo`: the browser download itself is not modelled; the
        toast names the video. */
    method DownloadVideo(video: Video)
      modifies client.host
      ensures client.host.View() == WithToast(old(client.host.View()), Toast("Descarga iniciada", video.title, false))
    {
      client.host.Notify(Toast("Descarga iniciada", video.title, false));
    }

    /** The mount effect: fetch when auto-fetch is on and a project is set. */
    method AutoFetch()
      modifies this, client.host
      ensures autoFetch && HasProject(projectId) ==>
        After(State(), client.host.View()) ==
        FetchSpec(old(State()), old(client.host.View()), client.host.server, client.baseUrl, projectId, page, size)
      ensures !(autoFetch && HasProject(projectId)) ==>
        State() == old(State()) && client.host.View() == old(client.host.View())
    {
      if autoFetch && projectId.Some? && projectId.value != "" {
        FetchVideos();
      }
    }
  }

  // ---------------------------------------------------------------------
  // Properties of the hook

  /** Without a project, fetch sends nothing, shows nothing, leaves the
      loading flag alone and only sets the error. */
  lemma FetchWithoutProject(s: VideosState, w: World, server: Server, baseUrl: string,
                            projectId: Option<string>, page: int, size: int)
    requires !HasProject(projectId)
    ensures FetchSpec(s, w, server, baseUrl, projectId, page, size) == After(s.(error := Some(NoProject)), w)
  {
  }

  /** A videos reply replaces the list with `data.content` and takes both
      totals from `data`; the error is cleared and nothing is shown. */
  lemma FetchSuccess(s: VideosState, w: World, server: Server, baseUrl: string,
                     projectId: string, page: int, size: int, resp: Response)
    requires projectId != ""
    requires server(|w.sent|, BuildRequest(baseUrl, ListCall(projectId, page, size).endpoint,
                                           InitOf(ListCall(projectId, page, size)), w.token)) == Received(resp)
    requires IsOk(resp.status) && !IsNoContent(resp) && IsJsonContent(resp)
    requires resp.json.Some? && resp.json.value.asVideosResponse.Some?
    ensures var a := FetchSpec(s, w, server, baseUrl, Some(projectId), page, size);
      var data := resp.json.value.asVideosResponse.value.data;
      && a.state == s.(videos := data.content, totalPages := data.totalPages,
                       totalElements := data.totalElements, loading := false, error := None)
      && a.world.events == w.events && a.world.token == w.token
      && |a.world.sent| == |w.sent| + 1
  {
  }

  /** A 401 on the list leaves the generic message as the error (the
      client throws a plain object, not an Error), clears the token, and
      shows the session toast before going to login. */
  lemma FetchUnauthorized(s: VideosState, w: World, server: Server, baseUrl: string,
                          projectId: string, page: int, size: int, resp: Response)
    requires projectId != ""
    requires server(|w.sent|, BuildRequest(baseUrl, ListCall(projectId, page, size).endpoint,
                                           InitOf(ListCall(projectId, page, size)), w.token)) == Received(resp)
    requires resp.status == 401
    ensures var a := FetchSpec(s, w, server, baseUrl, Some(projectId), page, size);
      && a.state == s.(loading := false, error := Some(LoadFailed))
      && a.world.token == None
      && a.world.events == w.events + [Notified(SessionToast), Navigated(LoginPath)]
  {
  }

  /** Which value the list call throws for each failure other than 401:
      fetch's TypeError on a network failure, a plain object for a non-2xx,
      the SyntaxError for an ok body that is not JSON, and the TypeError of
      reading `data.content` when an ok body is not a videos response. */
  lemma ListFailures(reply: Reply)
    ensures reply.NetworkFailure? ==> DecodeVideos(Outcome(reply)) == Err(ErrorInstance(FailedToFetch))
    ensures reply.Received? && !IsOk(reply.response.status) ==>
      DecodeVideos(Outcome(reply)).Err? && DecodeVideos(Outcome(reply)).error.ApiError?
    ensures reply.Received? && IsOk(reply.response.status) && !IsNoContent(reply.response) &&
            IsJsonContent(reply.response) && reply.response.json.None? ==>
      DecodeVideos(Outcome(reply)) == Err(ErrorInstance(InvalidJson))
    ensures reply.Received? && IsOk(reply.response.status) &&
            !(reply.response.json.Some? && reply.response.json.value.asVideosResponse.Some?) &&
            !(!IsNoContent(reply.response) && IsJsonContent(reply.response) && reply.response.json.None?) ==>
      DecodeVideos(Outcome(reply)) == Err(ErrorInstance(MissingData))
  {
  }

  /** Every failed list call other than a 401 keeps the token, sets `error`
      to the message of an Error instance or to the default for the client's
      plain objects, and shows one destructive "Error al cargar videos"
      toast carrying that message. */
  lemma FetchFailure(s: VideosState, w: World, server: Server, baseUrl: string,
                     projectId: string, page: int, size: int)
    requires projectId != ""
    ensures var call := ListCall(projectId, page, size);
      var req := BuildRequest(baseUrl, call.endpoint, InitOf(call), w.token);
      var reply := server(|w.sent|, req);
      var r := DecodeVideos(Outcome(reply));
      var a := FetchSpec(s, w, server, baseUrl, Some(projectId), page, size);
      r.Err? && !Unauthorized(reply) ==>
        var msg := if r.error.ErrorInstance? then r.error.message else LoadFailed;
        && a.state == s.(loading := false, error := Some(msg))
        && a.world.token == w.token && a.world.sent == w.sent + [req]
        && a.world.events == w.events + [Notified(Toast(LoadFailed, msg, true))]
  {
  }

  /** A file refused by validation (or any file without a project) sends
      nothing, changes no hook state and shows exactly one destructive toast. */
  lemma UploadRefusedSendsNothing(s: VideosState, w: World, server: Server, baseUrl: string,
                                  projectId: Option<string>, page: int, size: int, file: VideoFile)
    requires !HasProject(projectId) || ValidateFile(file).Invalid?
    ensures var a := UploadSpec(s, w, server, baseUrl, projectId, page, size, file);
      && a.state == s && a.world.sent == w.sent && a.world.token == w.token
      && |a.world.events| == |w.events| + 1 && a.world.events[|w.events|].toast.destructive
  {
  }

  /** A fetch only appends to the request log, lowers the loading flag
      when it runs, and leaves the upload and delete flags alone. */
  lemma FetchKeepsLog(s: VideosState, w: World, server: Server, baseUrl: string,
                      projectId: Option<string>, page: int, size: int)
    ensures var a := FetchSpec(s, w, server, baseUrl, projectId, page, size);
      && |a.world.sent| >= |w.sent| && a.world.sent[..|w.sent|] == w.sent
      && a.state.isUploading == s.isUploading && a.state.isDeleting == s.isDeleting
      && (HasProject(projectId) || !s.loading ==> !a.state.loading)
  {
    if HasProject(projectId) {
      var call := ListCall(projectId.value, page, size);
      RequestEffect(baseUrl, call.endpoint, InitOf(call), w, server);
    }
  }

  /** A valid file with a project and a token is sent as one multipart
      request titled by the name without its extension; the uploading flag
      ends lowered, and a lowered loading flag stays lowered. */
  lemma UploadSendsTitledFile(s: VideosState, w: World, server: Server, baseUrl: string,
                              projectId: string, page: int, size: int, file: VideoFile)
    requires projectId != "" && ValidateFile(file).Valid? && HasToken(w.token)
    ensures var a := UploadSpec(s, w, server, baseUrl, Some(projectId), page, size, file);
      && |a.world.sent| > |w.sent|
      && a.world.sent[|w.sent|] ==
           VideosApi.UploadRequest(projectId, w.token.value, UploadVideoDto(file, TitleFromName(file.name)))
      && !a.state.isUploading
      && a.state.isDeleting == s.isDeleting
      && (s.loading == false ==> !a.state.loading)
  {
    var dto := UploadVideoDto(file, TitleFromName(file.name));
    var st := VideosApi.UploadSpec(w, server, projectId, dto);
    VideosApi.UploadSendsOne(w, server, projectId, dto);
    if st.result.Ok? {
      FetchKeepsLog(s.(isUploading := true), WithToast(st.world, UploadedToast(file)), server, baseUrl,
                    Some(projectId), page, size);
    }
  }

  /** Delete with a project sends the DELETE as its next request and
      always ends with its flag lowered, whatever the reply. */
  lemma DeleteLowersFlag(s: VideosState, w: World, server: Server, baseUrl: string,
                         projectId: string, page: int, size: int, videoId: int)
    requires projectId != ""
    ensures var a := DeleteSpec(s, w, server, baseUrl, Some(projectId), page, size, videoId);
      var call := VideosApi.Delete(projectId, videoId);
      && !a.state.isDeleting && a.state.isUploading == s.isUploading
      && |a.world.sent| >= |w.sent| + 1
      && a.world.sent[|w.sent|] == BuildRequest(baseUrl, call.endpoint, InitOf(call), w.token)
  {
    var call := VideosApi.Delete(projectId, videoId);
    var st := CallSpec(baseUrl, call, w, server);
    RequestEffect(baseUrl, call.endpoint, InitOf(call), w, server);
    if st.result.Ok? {
      FetchKeepsLog(s.(isDeleting := true), WithToast(st.world, DeletedToast), server, baseUrl,
                    Some(projectId), page, size);
    }
  }

  /** What follows the upload request. On success the "Video subido" toast
      comes first, then exactly one refetch of the list, and both flags end
      lowered. On failure nothing more is sent, no error is re-thrown and
      the hook state is kept apart from the lowered flag: a 401 shows the
      session toast and then goes to login, and any other error shows one
      "Error al subir video" toast carrying its message. */
  lemma UploadOutcome(s: VideosState, w: World, server: Server, baseUrl: string,
                      projectId: string, page: int, size: int, file: VideoFile)
    requires projectId != "" && ValidateFile(file).Valid?
    ensures var st := VideosApi.UploadSpec(w, server, projectId, UploadVideoDto(file, TitleFromName(file.name)));
      var a := UploadSpec(s, w, server, baseUrl, Some(projectId), page, size, file);
      var call := ListCall(projectId, page, size);
      && (st.result.Ok? ==>
            && a.world.sent == st.world.sent + [BuildRequest(baseUrl, call.endpoint, InitOf(call), st.world.token)]
            && a.world.events[..|st.world.events| + 1] == st.world.events + [Notified(UploadedToast(file))]
            && !a.state.isUploading && !a.state.loading && a.state.isDeleting == s.isDeleting)
      && (st.result.Err? ==>
            a == After(s.(isUploading := false), CommandFailed(st.world, st.result.error, "Error al subir video")))
      && (st.result.Err? && st.result.error.IsUnauthorized() ==>
            a.world.events == st.world.events + [Notified(SessionToast), Navigated(LoginPath)])
      && (st.result.Err? && !st.result.error.IsUnauthorized() ==>
            a.world.events == st.world.events + [Notified(Toast("Error al subir video", st.result.error.message, true))])
  {
    var st := VideosApi.UploadSpec(w, server, projectId, UploadVideoDto(file, TitleFromName(file.name)));
    if st.result.Ok? {
      var call := ListCall(projectId, page, size);
      var w1 := WithToast(st.world, UploadedToast(file));
      RequestEffect(baseUrl, call.endpoint, InitOf(call), w1, server);
      FetchKeepsLog(s.(isUploading := true), w1, server, baseUrl, Some(projectId), page, size);
    }
  }

  /** What follows the delete request, as for the upload: on success the
      "Video eliminado" toast, then exactly one refetch, both flags lowered;
      on failure nothing more is sent, nothing is re-thrown, and the toast is
      the session one followed by login for a 401, or one "Error al eliminar
      video" toast carrying the error's message otherwise. */
  lemma DeleteOutcome(s: VideosState, w: World, server: Server, baseUrl: string,
                      projectId: string, page: int, size: int, videoId: int)
    requires projectId != ""
    ensures var st := CallSpec(baseUrl, VideosApi.Delete(projectId, videoId), w, server);
      var a := DeleteSpec(s, w, server, baseUrl, Some(projectId), page, size, videoId);
      var call := ListCall(projectId, page, size);
      && (st.result.Ok? ==>
            && a.world.sent == st.world.sent + [BuildRequest(baseUrl, call.endpoint, InitOf(call), st.world.token)]
            && a.world.events[..|st.world.events| + 1] == st.world.events + [Notified(DeletedToast)]
            && !a.state.isDeleting && !a.state.loading && a.state.isUploading == s.isUploading)
      && (st.result.Err? ==>
            a == After(s.(isDeleting := false), CommandFailed(st.world, st.result.error, "Error al eliminar video")))
      && (st.result.Err? && st.result.error.IsUnauthorized() ==>
            a.world.events == st.world.events + [Notified(SessionToast), Navigated(LoginPath)])
      && (st.result.Err? && !st.result.error.IsUnauthorized() ==>
            a.world.events == st.world.events + [Notified(Toast("Error al eliminar video", st.result.error.message, true))])
  {
    var st := CallSpec(baseUrl, VideosApi.Delete(projectId, videoId), w, server);
    if st.result.Ok? {
      var call := ListCall(projectId, page, size);
      var w1 := WithToast(st.world, DeletedToast);
      RequestEffect(baseUrl, call.endpoint, InitOf(call), w1, server);
      FetchKeepsLog(s.(isDeleting := true), w1, server, baseUrl, Some(projectId), page, size);
    }
  }

  /** A 401 on delete always ends on the login page with the token entry
      cleared. */
  lemma DeleteUnauthorized(s: VideosState, w: World, server: Server, baseUrl: string,
                           projectId: string, page: int, size: int, videoId: int, resp: Response)
    requires projectId != ""
    requires server(|w.sent|, BuildRequest(baseUrl, VideosApi.Delete(projectId, videoId).endpoint,
                                           InitOf(VideosApi.Delete(projectId, videoId)), w.token)) == Received(resp)
    requires resp.status == 401
    ensures var a := DeleteSpec(s, w, server, baseUrl, Some(projectId), page, size, videoId);
      && a.state == s.(isDeleting := false)
      && a.world.token == None
      && a.world.events == w.events + [Notified(SessionToast), Navigated(LoginPath)]
      && |a.world.sent| == |w.sent| + 1
  {
  }
}
