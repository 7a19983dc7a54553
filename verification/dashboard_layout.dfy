/** The dashboard layout's gate: a loading view while the session is
    loading or the layout's own `checkAuth` is pending, nothing plus a
    redirect to `/login` once settled without a user, the dashboard
    otherwise. */
module DashboardLayout {
  import opened Wrappers
  import opened Json
  import opened Http
  import opened Session

  datatype View = LoadingView | Blank | Dashboard

  /** What one render shows, and whether its effect navigates to `/login`. */
  datatype Frame = Frame(view: View, redirect: bool)

  /** One render with the given `loading`, `isCheckingAuth` and `user`. */
  function Render(loading: bool, checking: bool, user: Json): (f: Frame)
    ensures f.view == LoadingView <==> loading || checking
    ensures f.view == Dashboard <==> !loading && !checking && JsTruthy(Some(user))
    ensures f.redirect <==> !loading && !checking && !JsTruthy(Some(user))
    ensures f.redirect <==> f.view == Blank
  {
    if loading || checking then Frame(LoadingView, false)
    else if !JsTruthy(Some(user)) then Frame(Blank, true)
    else Frame(Dashboard, false)
  }

  /** The layout's state: its `isCheckingAuth` flag starts true and is
      cleared by the completion of its `checkAuth` call, and by nothing else. */
  datatype Gate = Gate(session: Session, checking: bool)

  function Mount(s: Session): (g: Gate)
    ensures g.checking && Render(g.session.loading, g.checking, g.session.user).view == LoadingView
  {
    Gate(s, true)
  }

  /** The completion of the layout's `checkAuth`. */
  function CheckCompleted(g: Gate, verify: Reply): (h: Gate)
    ensures !h.checking && !h.session.loading
    ensures h.session == CheckAuth(g.session, verify).session
  {
    Gate(CheckAuth(g.session, verify).session, false)
  }

  function Show(g: Gate): Frame {
    Render(g.session.loading, g.checking, g.session.user)
  }

  /** Once the check has completed, the dashboard shows exactly when a user
      is set; otherwise the layout renders nothing and redirects. The
      boolean `checkAuth` returned is not consulted. */
  lemma SettledGate(s: Session, verify: Reply)
    ensures var h := CheckCompleted(Mount(s), verify);
      && (Show(h).view == Dashboard <==> h.session.SignedIn())
      && (Show(h).redirect <==> !h.session.SignedIn())
      && Show(h).view != LoadingView
  {
  }

  /** A failed check can still show the dashboard: when the cookie does
      not parse, the user set earlier stays in place. */
  lemma StaleUserShown(s: Session, raw: string, m: string, verify: Reply)
    requires s.SignedIn() && raw != ""
    requires s.mirror == Some(Foreign(raw, Failure(m)))
    ensures !CheckAuth(s, verify).authenticated
    ensures Show(CheckCompleted(Mount(s), verify)).view == Dashboard
  {
  }
}
