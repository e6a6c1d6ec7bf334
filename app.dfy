/** The application shell: initial navigation state, page selection, and the route table. */
module App {
  import Auth
  import ProtectedRoute

  /** The page component `renderPage` returns. */
  datatype Page = DashboardPage | ServicesPage | DeliveryPage | ProvidersPage | ChatBoxPage

  /** `renderPage`: five ids select their page ("support" selects the chat box); anything else
      falls back to the dashboard. */
  function RenderPage(activePage: string): (p: Page)
    ensures p == ServicesPage <==> activePage == "services"
    ensures p == DeliveryPage <==> activePage == "delivery"
    ensures p == ProvidersPage <==> activePage == "providers"
    ensures p == ChatBoxPage <==> activePage == "support"
    ensures p == DashboardPage <==> activePage !in {"services", "delivery", "providers", "support"}
  {
    match activePage
    case "dashboard" => DashboardPage
    case "services" => ServicesPage
    case "delivery" => DeliveryPage
    case "providers" => ProvidersPage
    case "support" => ChatBoxPage
    case _ => DashboardPage
  }

  /** The state App owns and passes to the sidebar and header. */
  class Shell {
    var activePage: string
    var sidebarOpen: bool

    constructor ()
      ensures activePage == "dashboard" && !sidebarOpen
    {
      activePage, sidebarOpen := "dashboard", false;
    }
  }

  /** What a URL path shows: the login form, a login page whose `useAuth` call threw, or the
      shell behind the route guard. */
  datatype Screen = LoginScreen | LoginCrashed | Guarded(decision: ProtectedRoute.Decision)

  /** The route table: "/" is the login form, unguarded; every other path goes through the guard.
      The login form calls `useAuth` too, so a stored user that does not parse crashes it. */
  function Visit(path: string, store: map<string, string>): (s: Screen)
    ensures s == LoginScreen <==> path == "/" && !Auth.StoredUser(store).Malformed?
    ensures s == LoginCrashed <==> path == "/" && Auth.StoredUser(store).Malformed?
    ensures path != "/" ==> s == Guarded(ProtectedRoute.Decide(store))
  {
    if path != "/" then Guarded(ProtectedRoute.Decide(store))
    else if Auth.UseAuth(true, store).ParseThrows? then LoginCrashed
    else LoginScreen
  }
}
