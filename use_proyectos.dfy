/** The projects hook: the list of one page in UI form, its loading and
    error state, the three mutation flags, and the shared error policy
    (401 → back to login; anything else → error state and a toast). */
module UseProyectos {
  import opened Common
  import opened Types
  import opened Http
  import opened Client
  import opened ProyectosApi

  // ---------------------------------------------------------------------
  // Wire form to UI form

  function TransformProyecto(p: ProyectoApi): Proyecto {
    Proyecto(p.id, p.name, p.description, p.createdAt)
  }

  /** The wire form of a UI project, given the field the UI drops. */
  function ToApi(q: Proyecto, updatedAt: string): ProyectoApi {
    ProyectoApi(q.id, q.nombre, q.descripcion, q.creado, updatedAt)
  }

  /** The transform renames fields and drops only `updatedAt`: it is undone
      by `ToApi` given that field, and two projects look the same in the UI
      exactly when they differ at most in `updatedAt`. */
  lemma TransformDropsOnlyUpdatedAt(p: ProyectoApi, p2: ProyectoApi, q: Proyecto, u: string)
    ensures ToApi(TransformProyecto(p), p.updatedAt) == p
    ensures TransformProyecto(ToApi(q, u)) == q
    ensures TransformProyecto(p) == TransformProyecto(p2) <==> p.(updatedAt := p2.updatedAt) == p2
  {
  }

  /** `response.content.map(transformProyecto)` */
  function TransformAll(ps: seq<ProyectoApi>): (qs: seq<Proyecto>)
    ensures |qs| == |ps|
    ensures forall i :: 0 <= i < |ps| ==> qs[i] == TransformProyecto(ps[i])
  {
    seq(|ps|, i requires 0 <= i < |ps| => TransformProyecto(ps[i]))
  }

  // ---------------------------------------------------------------------
  // Hook state and the value-level behaviour of each operation

  datatype ProyectosState = ProyectosState(
    proyectos: seq<Proyecto>,
    loading: bool,
    error: Option<string>,
    totalPages: int,
    isCreating: bool,
    isUpdating: bool,
    isDeleting: bool)

  const Initial: ProyectosState := ProyectosState([], false, None, 0, false, false, false)

  /** Hook state and browser state after an operation that never throws. */
  datatype After = After(state: ProyectosState, world: World)

  datatype Mutation = Creating | Updating | Deleting

  function WithFlag(s: ProyectosState, m: Mutation, b: bool): ProyectosState {
    match m
    case Creating => s.(isCreating := b)
    case Updating => s.(isUpdating := b)
    case Deleting => s.(isDeleting := b)
  }

  const SessionExpiredTitle: string := "Sesión expirada"
  const LoginPath: string := "/login"
  /** The TypeError raised when the list response has no `content` array. */
  const MissingContent: string := "Cannot read properties of undefined (reading 'map')"

  /** `handleApiError(err, defaultMessage)` */
  function HandleApiErrorSpec(s: ProyectosState, w: World, e: Thrown, defaultMessage: string): After {
    if e.IsUnauthorized() then
      After(s, WithToast(WithNavigation(w, LoginPath), Toast(SessionExpiredTitle, e.message, true)))
    else
      var msg := if e.message != "" then e.message else defaultMessage;
      After(s.(error := Some(msg)), WithToast(w, Toast("Error", msg, true)))
  }

  /** The list page a successful `getAll` resolves to. */
  function DecodePage(r: Result<Payload, Thrown>): Result<PaginationResponse<ProyectoApi>, Thrown> {
    match r
    case Err(e) => Err(e)
    case Ok(p) =>
      if p.Parsed? && p.json.asProjectPage.Some? then Ok(p.json.asProjectPage.value)
      else Err(ErrorInstance(MissingContent))
  }

  function ListCall(page: int, size: int): Call {
    GetAll(ListParams(Some(page), Some(size), Some("createdAt"), Some(Desc)))
  }

  /** `fetchProyectos`: never throws; loading is set, then cleared. */
  function FetchSpec(s: ProyectosState, w: World, server: Server, baseUrl: string, page: int, size: int): After {
    var s1 := s.(loading := true, error := None);
    var st := CallSpec(baseUrl, ListCall(page, size), w, server);
    var a := match DecodePage(st.result)
             case Ok(pg) => After(s1.(proyectos := TransformAll(pg.content), totalPages := pg.totalPages), st.world)
             case Err(e) => HandleApiErrorSpec(s1, st.world, e, "Error al cargar proyectos");
    After(a.state.(loading := false), a.world)
  }

  /** The shape shared by create, update and delete: raise the flag, make
      the call; on success toast and refetch; on failure apply the error
      policy and re-throw; lower the flag either way. */
  function MutationSpec(s: ProyectosState, w: World, server: Server, baseUrl: string, page: int, size: int,
                        m: Mutation, call: Call, success: Toast, defaultMessage: string): Run<ProyectosState> {
    var st := CallSpec(baseUrl, call, w, server);
    var a := Settle(WithFlag(s, m, true), st, server, baseUrl, page, size, success, defaultMessage);
    Run(WithFlag(a.state, m, false), a.world, if st.result.Err? then Some(st.result.error) else None)
  }

  /** What follows the call of a mutation, before its flag is lowered. */
  function Settle(s: ProyectosState, st: Step<Result<Payload, Thrown>>, server: Server, baseUrl: string,
                  page: int, size: int, success: Toast, defaultMessage: string): After {
    match st.result
    case Ok(_) => FetchSpec(s, WithToast(st.world, success), server, baseUrl, page, size)
    case Err(e) => HandleApiErrorSpec(s, st.world, e, defaultMessage)
  }

  function CreatedToast(dto: ProyectoDto): Toast {
    Toast("Proyecto creado", "\"" + dto.name + "\" ha sido creado correctamente", false)
  }

  function UpdatedToast(dto: ProyectoDto): Toast {
    Toast("Proyecto actualizado", "\"" + dto.name + "\" ha sido actualizado correctamente", false)
  }

  const DeletedToast: Toast := Toast("Proyecto eliminado", "El proyecto ha sido eliminado correctamente", false)

  function CreateSpec(s: ProyectosState, w: World, server: Server, baseUrl: string, page: int, size: int,
                      dto: ProyectoDto): Run<ProyectosState> {
    MutationSpec(s, w, server, baseUrl, page, size, Creating, Create(dto), CreatedToast(dto), "Error al crear proyecto")
  }

  function UpdateSpec(s: ProyectosState, w: World, server: Server, baseUrl: string, page: int, size: int,
                      id: int, dto: ProyectoDto): Run<ProyectosState> {
    MutationSpec(s, w, server, baseUrl, page, size, Updating, Update(id, dto), UpdatedToast(dto), "Error al actualizar proyecto")
  }

  function DeleteSpec(s: ProyectosState, w: World, server: Server, baseUrl: string, page: int, size: int,
                      id: int): Run<ProyectosState> {
    MutationSpec(s, w, server, baseUrl, page, size, Deleting, Delete(id), DeletedToast, "Error al eliminar proyecto")
  }

  // ---------------------------------------------------------------------
  // The hook as an object

  class ProyectosController {
    var proyectos: seq<Proyecto>
    var loading: bool
    var error: Option<string>
    var totalPages: int
    var isCreating: bool
    var isUpdating: bool
    var isDeleting: bool
    const page: int
    const size: int
    const autoFetch: bool
    const client: ApiClient

    function State(): ProyectosState
      reads this
    {
      ProyectosState(proyectos, loading, error, totalPages, isCreating, isUpdating, isDeleting)
    }

    constructor (client: ApiClient, page: int := 0, size: int := 20, autoFetch: bool := true)
      ensures State() == Initial
      ensures this.client == client && this.page == page && this.size == size && this.autoFetch == autoFetch
    {
      this.client := client;
      this.page := page;
      this.size := size;
      this.autoFetch := autoFetch;
      proyectos := [];
      loading := false;
      error := None;
      totalPages := 0;
      isCreating := false;
      isUpdating := false;
      isDeleting := false;
    }

    method SetState(s: ProyectosState)
      modifies this
      ensures State() == s
    {
      proyectos, loading, error, totalPages := s.proyectos, s.loading, s.error, s.totalPages;
      isCreating, isUpdating, isDeleting := s.isCreating, s.isUpdating, s.isDeleting;
    }

    method HandleApiError(e: Thrown, defaultMessage: string)
      modifies this, client.host
      ensures After(State(), client.host.View()) ==
        HandleApiErrorSpec(old(State()), old(client.host.View()), e, defaultMessage)
    {
      if e.ApiError? && e.status == 401 {
        client.host.Navigate(LoginPath);
        client.host.Notify(Toast(SessionExpiredTitle, e.message, true));
        return;
      }
      var msg := if e.message != "" then e.message else defaultMessage;
      error := Some(msg);
      client.host.Notify(Toast("Error", msg, true));
    }

    method FetchProyectos()
      modifies this, client.host
      ensures After(State(), client.host.View()) ==
        FetchSpec(old(State()), old(client.host.View()), client.host.server, client.baseUrl, page, size)
    {
      loading := true;
      error := None;
      ghost var s1 := State();
      var r := client.Perform(ListCall(page, size));
      ghost var w1 := client.host.View();
      match DecodePage(r) {
        case Ok(pg) =>
          proyectos := TransformAll(pg.content);
          totalPages := pg.totalPages;
          assert After(State(), client.host.View()) == After(s1.(proyectos := TransformAll(pg.content), totalPages := pg.totalPages), w1);
        case Err(e) =>
          HandleApiError(e, "Error al cargar proyectos");
      }
      loading := false;
    }

    method Mutate(m: Mutation, call: Call, success: Toast, defaultMessage: string) returns (thrown: Option<Thrown>)
      modifies this, client.host
      ensures Run(State(), client.host.View(), thrown) ==
        MutationSpec(old(State()), old(client.host.View()), client.host.server, client.baseUrl, page, size,
                     m, call, success, defaultMessage)
    {
      SetState(WithFlag(State(), m, true));
      var r := client.Perform(call);
      thrown := SettleMutation(r, success, defaultMessage);
      SetState(WithFlag(State(), m, false));
    }

    /** The part of a mutation after its call resolved to `r`. */
    method SettleMutation(r: Result<Payload, Thrown>, success: Toast, defaultMessage: string) returns (thrown: Option<Thrown>)
      modifies this, client.host
      ensures After(State(), client.host.View()) ==
        Settle(old(State()), Step(old(client.host.View()), r), client.host.server, client.baseUrl, page, size,
               success, defaultMessage)
      ensures thrown == if r.Err? then Some(r.error) else None
    {
      match r {
        case Ok(_) =>
          client.host.Notify(success);
          FetchProyectos();
          thrown := None;
        case Err(e) =>
          HandleApiError(e, defaultMessage);
          thrown := Some(e);
      }
    }

    /** `createProyecto`; a returned error is the one it re-throws. */
    method CreateProyecto(dto: ProyectoDto) returns (thrown: Option<Thrown>)
      modifies this, client.host
      ensures Run(State(), client.host.View(), thrown) ==
        CreateSpec(old(State()), old(client.host.View()), client.host.server, client.baseUrl, page, size, dto)
    {
      thrown := Mutate(Creating, Create(dto), CreatedToast(dto), "Error al crear proyecto");
    }

    method UpdateProyecto(id: int, dto: ProyectoDto) returns (thrown: Option<Thrown>)
      modifies this, client.host
      ensures Run(State(), client.host.View(), thrown) ==
        UpdateSpec(old(State()), old(client.host.View()), client.host.server, client.baseUrl, page, size, id, dto)
    {
      thrown := Mutate(Updating, Update(id, dto), UpdatedToast(dto), "Error al actualizar proyecto");
    }

    method DeleteProyecto(id: int) returns (thrown: Option<Thrown>)
      modifies this, client.host
      ensures Run(State(), client.host.View(), thrown) ==
        DeleteSpec(old(State()), old(client.host.View()), client.host.server, client.baseUrl, page, size, id)
    {
      thrown := Mutate(Deleting, Delete(id), DeletedToast, "Error al eliminar proyecto");
    }

    /** The mount effect: fetch when auto-fetch is on. */
    method AutoFetch()
      modifies this, client.host
      ensures autoFetch ==>
        After(State(), client.host.View()) ==
        FetchSpec(old(State()), old(client.host.View()), client.host.server, client.baseUrl, page, size)
      ensures !autoFetch ==> State() == old(State()) && client.host.View() == old(client.host.View())
    {
      if autoFetch {
        FetchProyectos();
      }
    }
  }

  // ---------------------------------------------------------------------
  // Properties of the hook

  /** A 401 sends the user to the login page and then shows the session
      toast, leaving the hook state (the error included) untouched; any other
      error sets `error` to its own message, or to the default when that is
      empty, and shows exactly that message. */
  lemma ErrorPolicy(s: ProyectosState, w: World, e: Thrown, defaultMessage: string)
    requires defaultMessage != ""
    ensures var a := HandleApiErrorSpec(s, w, e, defaultMessage);
      && a.world.token == w.token && a.world.sent == w.sent
      && (e.IsUnauthorized() ==>
            a.state == s &&
            a.world.events == w.events + [Navigated(LoginPath), Notified(Toast(SessionExpiredTitle, e.message, true))])
      && (!e.IsUnauthorized() ==>
            var msg := if e.message != "" then e.message else defaultMessage;
            msg != "" &&
            a.state == s.(error := Some(msg)) &&
            a.world.events == w.events + [Notified(Toast("Error", msg, true))])
  {
  }

  /** A fetch sends exactly one list request, never throws, and ends with
      loading cleared; the mutation flags are untouched. */
  lemma FetchEffect(s: ProyectosState, w: World, server: Server, baseUrl: string, page: int, size: int)
    ensures var a := FetchSpec(s, w, server, baseUrl, page, size);
      && |a.world.sent| == |w.sent| + 1 && a.world.sent[..|w.sent|] == w.sent
      && a.world.sent[|w.sent|] == BuildRequest(baseUrl, ListCall(page, size).endpoint, InitOf(ListCall(page, size)), w.token)
      && !a.state.loading
      && a.state.isCreating == s.isCreating && a.state.isUpdating == s.isUpdating && a.state.isDeleting == s.isDeleting
  {
  }

  /** A page reply replaces the list with its content in UI form and takes
      its page count; the error is cleared and nothing is shown. */
  lemma FetchSuccess(s: ProyectosState, w: World, server: Server, baseUrl: string, page: int, size: int,
                     resp: Response)
    requires server(|w.sent|, BuildRequest(baseUrl, ListCall(page, size).endpoint, InitOf(ListCall(page, size)), w.token))
             == Received(resp)
    requires IsOk(resp.status) && !IsNoContent(resp) && IsJsonContent(resp)
    requires resp.json.Some? && resp.json.value.asProjectPage.Some?
    ensures var a := FetchSpec(s, w, server, baseUrl, page, size);
      var pg := resp.json.value.asProjectPage.value;
      && a.state.proyectos == TransformAll(pg.content)
      && |a.state.proyectos| == |pg.content|
      && a.state.totalPages == pg.totalPages
      && a.state.error == None
      && a.world.events == w.events && a.world.token == w.token
  {
  }

  /** A 401 on the list clears the token, leaves the list and the cleared
      error as they were, and navigates to login before the toast. */
  lemma FetchUnauthorized(s: ProyectosState, w: World, server: Server, baseUrl: string, page: int, size: int,
                          resp: Response)
    requires server(|w.sent|, BuildRequest(baseUrl, ListCall(page, size).endpoint, InitOf(ListCall(page, size)), w.token))
             == Received(resp)
    requires resp.status == 401
    ensures var a := FetchSpec(s, w, server, baseUrl, page, size);
      && a.world.token == None
      && a.state == s.(loading := false, error := None)
      && a.world.events == w.events + [Navigated(LoginPath), Notified(Toast(SessionExpiredTitle, SessionExpiredMessage, true))]
  {
  }

  /** A mutation whose call succeeds sends that call then the list request,
      shows its success toast before anything the refetch shows, re-throws
      nothing, and lowers its flag. */
  lemma MutationSuccess(s: ProyectosState, w: World, server: Server, baseUrl: string, page: int, size: int,
                        m: Mutation, call: Call, success: Toast, defaultMessage: string)
    requires CallSpec(baseUrl, call, w, server).result.Ok?
    ensures var r := MutationSpec(s, w, server, baseUrl, page, size, m, call, success, defaultMessage);
      var w1 := CallSpec(baseUrl, call, w, server).world;
      && r.thrown == None
      && |r.world.sent| == |w.sent| + 2
      && r.world.sent[|w.sent|] == BuildRequest(baseUrl, call.endpoint, InitOf(call), w.token)
      && r.world.sent[|w.sent| + 1] == BuildRequest(baseUrl, ListCall(page, size).endpoint, InitOf(ListCall(page, size)), w1.token)
      && r.world.events[..|w.events| + 1] == w.events + [Notified(success)]
      && WithFlag(r.state, m, false) == r.state
      && !r.state.loading
  {
    var w1 := CallSpec(baseUrl, call, w, server).world;
    var a := FetchSpec(WithFlag(s, m, true), WithToast(w1, success), server, baseUrl, page, size);
    assert a.world.events[..|w.events| + 1] == w.events + [Notified(success)];
  }

  /** A mutation whose call fails re-throws that very error after applying
      the error policy, sends nothing more, and lowers its flag. */
  lemma MutationFailure(s: ProyectosState, w: World, server: Server, baseUrl: string, page: int, size: int,
                        m: Mutation, call: Call, success: Toast, defaultMessage: string)
    requires CallSpec(baseUrl, call, w, server).result.Err?
    ensures var r := MutationSpec(s, w, server, baseUrl, page, size, m, call, success, defaultMessage);
      var st := CallSpec(baseUrl, call, w, server);
      && r.thrown == Some(st.result.error)
      && r.world.sent == st.world.sent && |r.world.sent| == |w.sent| + 1
      && r.world == HandleApiErrorSpec(s, st.world, st.result.error, defaultMessage).world
      && r.state == WithFlag(HandleApiErrorSpec(WithFlag(s, m, true), st.world, st.result.error, defaultMessage).state, m, false)
  {
  }
}
