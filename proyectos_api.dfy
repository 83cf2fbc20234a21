/** The projects gateway: each operation is the client call it delegates
    to. Nothing here catches, so the client's result is the gateway's. */
module ProyectosApi {
  import opened Common
  import opened Types
  import opened Http
  import opened Client

  /** Parameters of the list call; `None` stands for an omitted field. */
  datatype ListParams = ListParams(
    page: Option<int>,
    size: Option<int>,
    sortBy: Option<string>,
    sortDirection: Option<SortDirection>)

  function ListPath(page: int, size: int, sortBy: string, sortDirection: SortDirection): string {
    "/projects?page=" + IntToString(page) + "&size=" + IntToString(size) +
    "&sortBy=" + sortBy + "&sortDirection=" + sortDirection.Text()
  }

  function ProjectPath(id: int): string {
    "/projects/" + IntToString(id)
  }

  /** `getAll`: page 0, size 20, newest first unless told otherwise. */
  function GetAll(params: ListParams): (c: Call)
    ensures c.GetCall?
  {
    GetCall(ListPath(params.page.GetOr(0), params.size.GetOr(20),
                     params.sortBy.GetOr("createdAt"), params.sortDirection.GetOr(Desc)))
  }

  /** With every parameter omitted the list path is exactly this one. */
  lemma DefaultListCall()
    ensures GetAll(ListParams(None, None, None, None)) ==
      GetCall("/projects?page=" + "0" + "&size=" + "20" + "&sortBy=" + "createdAt" + "&sortDirection=" + "DESC")
  {
    assert Digit(0) == '0' && Digit(2) == '2';
    assert IntToString(0) == "0";
    assert IntToString(20) == NatToString(2) + [Digit(0)] == "20";
    assert Desc.Text() == "DESC";
    assert ListPath(0, 20, "createdAt", Desc) ==
      "/projects?page=" + "0" + "&size=" + "20" + "&sortBy=" + "createdAt" + "&sortDirection=" + "DESC";
    assert GetAll(ListParams(None, None, None, None)) == GetCall(ListPath(0, 20, "createdAt", Desc));
  }

  function GetById(id: int): Call {
    GetCall(ProjectPath(id))
  }

  function Create(dto: ProyectoDto): Call {
    PostCall("/projects", ProjectBody(dto))
  }

  function Update(id: int, dto: ProyectoDto): Call {
    PutCall(ProjectPath(id), ProjectBody(dto))
  }

  function Delete(id: int): Call {
    DeleteCall(ProjectPath(id))
  }

  /** What each operation puts on the wire: the verb, and the DTO as the
      JSON body for create and update only; `create` posts to the list. */
  lemma GatewayRequests(id: int, dto: ProyectoDto)
    ensures InitOf(GetById(id)) == RequestInit(GET, map[], NoBody)
    ensures Create(dto).endpoint == "/projects" && InitOf(Create(dto)) == RequestInit(POST, map[], JsonOf(ProjectBody(dto)))
    ensures InitOf(Update(id, dto)) == RequestInit(PUT, map[], JsonOf(ProjectBody(dto)))
    ensures InitOf(Delete(id)) == RequestInit(DELETE, map[], NoBody)
  {
  }

  /** The single-project operations address the same resource for one id,
      and different ids address different resources. */
  lemma ProjectPathsIdentifyProjects(a: int, b: int)
    ensures GetById(a).endpoint == Update(a, ProyectoDto("", "")).endpoint == Delete(a).endpoint
    ensures ProjectPath(a) == ProjectPath(b) <==> a == b
  {
    if ProjectPath(a) == ProjectPath(b) {
      var prefix := "/projects/";
      assert ProjectPath(a)[|prefix|..] == IntToString(a);
      assert ProjectPath(b)[|prefix|..] == IntToString(b);
      IntToStringInjective(a, b);
    }
  }
}
