/** The password-reset page: an ordered guard chain on the token and the two
    password fields, then one request whose outcome is reported by a toast. */
module ResetPasswordPage {
  import opened Common
  import opened Http

  const ResetUrl: string := "https://elevideo.onrender.com/api/v1/auth/reset-password"
  const InvalidToken: string := "Token inválido o expirado"
  const Mismatch: string := "Las contraseñas no coinciden"
  const TooShort: string := "La contraseña debe tener al menos 6 caracteres"
  const MinLength: int := 6
  const ConnectionError: Toast := Toast("Error de conexión", "No se pudo conectar con el servidor", true)
  const ResetDone: Toast := Toast("¡Éxito!", "Contraseña restablecida correctamente", false)

  /** The guards in source order: token, then match, then length; the first
      failure is the one reported. */
  function ResetGuard(token: Option<string>, password: string, confirm: string): (failure: Option<string>)
    ensures failure.None? <==> HasToken(token) && password == confirm && |password| >= MinLength
    ensures !HasToken(token) ==> failure == Some(InvalidToken)
    ensures HasToken(token) && password != confirm ==> failure == Some(Mismatch)
    ensures HasToken(token) && password == confirm && |password| < MinLength ==> failure == Some(TooShort)
  {
    if !HasToken(token) then Some(InvalidToken)
    else if password != confirm then Some(Mismatch)
    else if |password| < MinLength then Some(TooShort)
    else None
  }

  /** The guard order decides the message when several fail, and the
      length bound is inclusive. */
  lemma GuardOrder(t: string, p: string, q: string)
    requires |p| < MinLength && p != q && t != ""
    ensures ResetGuard(None, p, q) == Some(InvalidToken)
    ensures ResetGuard(Some(""), p, q) == Some(InvalidToken)
    ensures ResetGuard(Some(t), p, q) == Some(Mismatch)
    ensures ResetGuard(Some(t), p, p) == Some(TooShort)
    ensures ResetGuard(Some(t), "abcdef", "abcdef") == None
  {
  }

  /** The request: JSON body `{token, newPassword}`, only a content type. */
  function ResetRequest(token: string, password: string): (req: Request)
    ensures req.verb == POST && req.url == ResetUrl
    ensures req.headers == map["Content-Type" := "application/json"]
    ensures req.body == JsonOf(PasswordReset(token, password))
  {
    Request(ResetUrl, POST, map["Content-Type" := "application/json"], JsonOf(PasswordReset(token, password)))
  }

  /** The toast for the reply: the body is parsed before `ok` is looked at,
      so a body that is not JSON reads as a connection error too. */
  function ResetOutcome(reply: Reply): (t: Toast)
    ensures t.destructive <==> !(reply.Received? && reply.response.json.Some? && IsOk(reply.response.status))
    ensures reply.NetworkFailure? || reply.response.json.None? ==> t == ConnectionError
    ensures reply.Received? && reply.response.json.Some? && !IsOk(reply.response.status) ==>
      t == Toast("Error", MessageOr(reply.response.json.value, "No se pudo restablecer la contraseña"), true)
    ensures reply.Received? && reply.response.json.Some? && IsOk(reply.response.status) ==> t == ResetDone
  {
    match reply
    case NetworkFailure => ConnectionError
    case Received(resp) =>
      match resp.json
      case None => ConnectionError
      case Some(data) =>
        if !IsOk(resp.status) then Toast("Error", MessageOr(data, "No se pudo restablecer la contraseña"), true)
        else ResetDone
  }

  /** The page's loading flag and the browser after a submit. */
  datatype Submitted = Submitted(loading: bool, world: World)

  /** `handleSubmit` */
  function SubmitSpec(loading: bool, w: World, server: Server, token: Option<string>,
                      password: string, confirm: string): Submitted {
    match ResetGuard(token, password, confirm)
    case Some(msg) => Submitted(loading, WithToast(w, Toast("Error", msg, true)))
    case None =>
      var st := Send(w, server, ResetRequest(token.value, password));
      Submitted(false, WithToast(st.world, ResetOutcome(st.result)))
  }

  /** A refused submit sends nothing, keeps the loading flag and shows one
      error toast; an accepted one sends exactly the reset request, leaves
      the token entry alone, ends with loading cleared and shows the toast
      for the service's reply. */
  lemma SubmitEffect(loading: bool, w: World, server: Server, token: Option<string>, password: string, confirm: string)
    ensures var r := SubmitSpec(loading, w, server, token, password, confirm);
      && r.world.token == w.token
      && |r.world.events| == |w.events| + 1
      && (ResetGuard(token, password, confirm).Some? ==>
            r.loading == loading && r.world.sent == w.sent &&
            r.world.events[|w.events|] == Notified(Toast("Error", ResetGuard(token, password, confirm).value, true)))
      && (ResetGuard(token, password, confirm).None? ==>
            !r.loading && r.world.sent == w.sent + [ResetRequest(token.value, password)] &&
            r.world.events[|w.events|] == Notified(ResetOutcome(server(|w.sent|, ResetRequest(token.value, password)))))
  {
  }

  class ResetPasswordForm {
    /** The `token` query parameter, `None` when absent. */
    const token: Option<string>
    var password: string
    var confirmPassword: string
    var loading: bool
    const host: Browser

    constructor (host: Browser, token: Option<string>)
      ensures this.host == host && this.token == token
      ensures password == "" && confirmPassword == "" && !loading
    {
      this.host := host;
      this.token := token;
      password := "";
      confirmPassword := "";
      loading := false;
    }

    method HandleSubmit()
      modifies this, host
      ensures Submitted(loading, host.View()) ==
        SubmitSpec(old(loading), old(host.View()), host.server, token, old(password), old(confirmPassword))
      ensures password == old(password) && confirmPassword == old(confirmPassword)
    {
      if token.None? || token.value == "" {
        host.Notify(Toast("Error", InvalidToken, true));
        return;
      }
      if password != confirmPassword {
        host.Notify(Toast("Error", Mismatch, true));
        return;
      }
      if |password| < MinLength {
        host.Notify(Toast("Error", TooShort, true));
        return;
      }
      loading := true;
      var reply := host.Fetch(ResetRequest(token.value, password));
      host.Notify(ResetOutcome(reply));
      loading := false;
    }
  }
}
