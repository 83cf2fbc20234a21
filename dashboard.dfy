/** The dashboard's logout: the token entry is removed, a toast confirms,
    and the user is sent to the login page. */
module DashboardPage {
  import opened Common
  import opened Http

  const LoggedOut: Toast := Toast("Sesión cerrada", "Has cerrado sesión correctamente", false)

  /** `handleLogout` */
  method HandleLogout(host: Browser)
    modifies host
    ensures host.View() == WithNavigation(WithToast(old(host.View()).(token := None), LoggedOut), "/login")
  {
    host.RemoveToken();
    host.Notify(LoggedOut);
    host.Navigate("/login");
  }
}
