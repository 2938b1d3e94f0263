/** The admin page's password gate: a plaintext password check on the
    client, remembered in local storage under its own key. It is a state
    machine over the `authenticated` flag, the typed password and storage,
    not a security mechanism. The alert on a wrong password is I/O and is
    left out. */
module AdminGate {
  import opened Portfolio
  import opened Json
  import opened PortfolioSync
  import opened Cms

  const AdminPassword: string := "ShrushP"
  const AuthKey: string := "portfolio_admin_auth"

  datatype Gate = Gate(authenticated: bool, password: string, showStats: bool, storage: Storage)

  /** The page before its mount effect runs. */
  function Fresh(storage: Storage): Gate
  {
    Gate(false, "", true, storage)
  }

  /** Typing in the password field. */
  function TypePassword(g: Gate, password: string): (r: Gate)
    ensures r.password == password && r.authenticated == g.authenticated && r.storage == g.storage
  {
    g.(password := password)
  }

  /** `handleLogin`: the right password opens the gate and then tries to
      remember it with an uncaught `setItem`; `written` says whether that
      write succeeded. The gate opens either way, but only a successful
      write stores "true". Any other password changes nothing. */
  function Login(g: Gate, written: bool): (r: Gate)
    ensures g.password == AdminPassword ==> r.authenticated
    ensures g.password == AdminPassword && written ==> AuthKey in r.storage && r.storage[AuthKey] == "true"
    ensures g.password == AdminPassword && !written ==> r.storage == g.storage
    ensures g.password == AdminPassword ==> forall k :: k in g.storage && k != AuthKey ==> k in r.storage && r.storage[k] == g.storage[k]
    ensures g.password == AdminPassword ==> r.password == g.password && r.showStats == g.showStats
    ensures g.password != AdminPassword ==> r == g
  {
    if g.password == AdminPassword then
      g.(authenticated := true, storage := if written then g.storage[AuthKey := "true"] else g.storage)
    else g
  }

  /** The mount effect: a stored "true" opens the gate; nothing closes it. */
  function Mount(g: Gate): (r: Gate)
    ensures r.authenticated <==> g.authenticated || (AuthKey in g.storage && g.storage[AuthKey] == "true")
    ensures r.storage == g.storage && r.password == g.password
  {
    if AuthKey in g.storage && g.storage[AuthKey] == "true" then g.(authenticated := true) else g
  }

  /** `handleLogout`: close the gate, forget it in storage, clear the field. */
  function Logout(g: Gate): (r: Gate)
    ensures !r.authenticated && AuthKey !in r.storage && r.password == ""
    ensures forall k :: k in g.storage && k != AuthKey ==> k in r.storage && r.storage[k] == g.storage[k]
  {
    g.(authenticated := false, storage := g.storage - {AuthKey}, password := "")
  }

  /** The "Show/Hide Stats" button. */
  function ToggleStats(g: Gate): (r: Gate)
    ensures r.showStats == !g.showStats
    ensures r.(showStats := g.showStats) == g
  {
    g.(showStats := !g.showStats)
  }

  /** Two presses of the stats button restore the page. */
  lemma ToggleStatsTwice(g: Gate)
    ensures ToggleStats(ToggleStats(g)) == g
  {
  }

  /** A later visit is let in without a password exactly when the store
      says "true": after a login whose write succeeded it is; after one whose
      write failed only if "true" was already stored; after a logout never. */
  lemma LoginRemembered(g: Gate, written: bool)
    requires g.password == AdminPassword
    ensures Mount(Fresh(Login(g, written).storage)).authenticated <==>
              written || (AuthKey in g.storage && g.storage[AuthKey] == "true")
  {
  }

  /** A login whose write failed opens the gate for this visit only: with
      nothing remembered before, the next visit is locked again. */
  lemma FailedLoginForgotten(g: Gate)
    requires g.password == AdminPassword && AuthKey !in g.storage
    ensures Login(g, false).authenticated
    ensures !Mount(Fresh(Login(g, false).storage)).authenticated
  {
  }

  lemma LogoutForgotten(g: Gate)
    ensures !Mount(Fresh(Logout(g).storage)).authenticated
  {
  }

  /** A wrong password neither opens the gate nor touches storage. */
  lemma WrongPasswordKeepsClosed(g: Gate, written: bool)
    requires !g.authenticated && g.password != AdminPassword
    ensures !Login(g, written).authenticated && Login(g, written).storage == g.storage
  {
  }

  /** The gate guards nothing but its own key: login and logout leave the
      CMS's stored project list as it was. */
  lemma GateLeavesProjectsAlone(c: Codec, g: Gate, written: bool)
    ensures Load(c, Login(g, written).storage) == Load(c, g.storage)
    ensures Load(c, Logout(g).storage) == Load(c, g.storage)
  {
    assert AuthKey != StorageKey;
  }

  /** The figures of the quick-stats panel, in display order: total,
      published, drafts, before/after images. */
  datatype PanelStats = PanelStats(total: nat, published: nat, drafts: nat, beforeAfter: nat)

  /** The quick-stats panel: figures written into the page, read from nowhere. */
  const QuickStats: PanelStats := PanelStats(12, 8, 3, 24)

  /** The panel can disagree with the CMS's own counts of the stored list:
      with nothing stored the CMS counts no project, while the panel still
      shows twelve, eight published and three drafts. */
  lemma QuickStatsIgnoreStore(c: Codec, st: Storage)
    requires StorageKey !in st
    ensures CountStats(ProjectList(Load(c, st))) == Stats(0, 0, 0)
    ensures QuickStats.total != 0 && QuickStats.published != 0 && QuickStats.drafts != 0
  {
  }

  /** The projects a loaded value holds; anything else holds none. */
  function ProjectList(v: JsonValue): (ps: seq<Project>)
    ensures v.ProjectArray? ==> ps == v.projects
    ensures v.OtherJson? ==> ps == []
  {
    if v.ProjectArray? then v.projects else []
  }
}
