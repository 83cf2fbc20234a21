/** The login page: one request with the credentials; on success the token
    from the response (when there is one) is stored, then a welcome toast
    and the move to the home page. */
module LoginPage {
  import opened Common
  import opened Http

  const LoginUrl: string := "https://elevideo.onrender.com/api/v1/auth/login"
  const HomePath: string := "/homepage"
  const ConnectionError: Toast := Toast("Error de conexión", "No se pudo conectar con el servidor", true)
  const Welcome: Toast := Toast("¡Bienvenido!", "Autenticación exitosa", false)

  function LoginRequest(email: string, password: string): (req: Request)
    ensures req.verb == POST && req.url == LoginUrl
    ensures req.headers == map["Content-Type" := "application/json"]
    ensures req.body == JsonOf(Credentials(email, password))
  {
    Request(LoginUrl, POST, map["Content-Type" := "application/json"], JsonOf(Credentials(email, password)))
  }

  function Rejected(data: Json): Toast {
    Toast("Error de autenticación", MessageOr(data, "Las credenciales son inválidas"), true)
  }

  /** What the reply does to the browser: a network failure or a body that
      is not JSON is a connection error; a non-ok status is an
      authentication error; an ok status stores a non-empty `data.token`,
      welcomes and goes home. */
  function Conclude(w: World, reply: Reply): World {
    match reply
    case NetworkFailure => WithToast(w, ConnectionError)
    case Received(resp) =>
      match resp.json
      case None => WithToast(w, ConnectionError)
      case Some(data) =>
        if !IsOk(resp.status) then WithToast(w, Rejected(data))
        else
          var w1 := if data.dataToken != "" then w.(token := Some(data.dataToken)) else w;
          WithNavigation(WithToast(w1, Welcome), HomePath)
  }

  /** `handleSubmit`: the request, then its conclusion. */
  function SubmitSpec(w: World, server: Server, email: string, password: string): World {
    var st := Send(w, server, LoginRequest(email, password));
    Conclude(st.world, st.result)
  }

  /** The token entry changes only for an ok JSON reply carrying a token,
      and then holds exactly that token; an ok reply without one stores
      nothing. Only an ok reply welcomes and navigates; a rejection shows the
      body's message or the default, and anything else the connection error. */
  lemma TokenStoredOnlyOnSuccess(w: World, server: Server, email: string, password: string)
    ensures var w2 := SubmitSpec(w, server, email, password);
      var reply := server(|w.sent|, LoginRequest(email, password));
      var ok := reply.Received? && reply.response.json.Some? && IsOk(reply.response.status);
      && w2.sent == w.sent + [LoginRequest(email, password)]
      && (w2.token != w.token ==> ok && w2.token == Some(reply.response.json.value.dataToken))
      && (ok && reply.response.json.value.dataToken != "" ==> w2.token == Some(reply.response.json.value.dataToken))
      && (ok && reply.response.json.value.dataToken == "" ==> w2.token == w.token)
      && (ok <==> Navigated(HomePath) in w2.events[|w.events|..])
      && (ok ==> w2.events == w.events + [Notified(Welcome), Navigated(HomePath)])
      && (!ok ==>
            var t := if reply.Received? && reply.response.json.Some? then Rejected(reply.response.json.value)
                     else ConnectionError;
            w2.token == w.token && w2.events == w.events + [Notified(t)])
  {
    var reply := server(|w.sent|, LoginRequest(email, password));
    var w2 := SubmitSpec(w, server, email, password);
    if reply.Received? && reply.response.json.Some? && IsOk(reply.response.status) {
      assert w2.events[|w.events|..] == [Notified(Welcome), Navigated(HomePath)];
    } else {
      assert |w2.events[|w.events|..]| == 1;
    }
  }

  class LoginForm {
    var email: string
    var password: string
    var loading: bool
    const host: Browser

    constructor (host: Browser)
      ensures this.host == host && email == "" && password == "" && !loading
    {
      this.host := host;
      email := "";
      password := "";
      loading := false;
    }

    method HandleSubmit()
      modifies this, host
      ensures host.View() == SubmitSpec(old(host.View()), host.server, old(email), old(password))
      ensures !loading && email == old(email) && password == old(password)
    {
      loading := true;
      var reply := host.Fetch(LoginRequest(email, password));
      match reply {
        case NetworkFailure =>
          host.Notify(ConnectionError);
        case Received(resp) =>
          match resp.json {
            case None =>
              host.Notify(ConnectionError);
            case Some(data) =>
              if !IsOk(resp.status) {
                host.Notify(Rejected(data));
              } else {
                if data.dataToken != "" {
                  host.SetToken(data.dataToken);
                }
                host.Notify(Welcome);
                host.Navigate(HomePath);
              }
          }
      }
      loading := false;
    }
  }
}
