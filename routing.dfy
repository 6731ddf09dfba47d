/**
 * The application layout's access decision: from the session state, the
 * signed-in user's role and status, and the page's pathname, to what the
 * layout shows.
 */
module Routing {
  import opened Text
  import opened Documents

  /** The part of a session the layout reads. */
  datatype SessionUser = SessionUser(role: string, status: string)

  datatype View =
    | Spinner
    | SuspendedPage
    | TerminatedPage
    | ResignedPage
    | Redirect(target: string)
    | Render(sidebar: bool)

  predicate IsAdmin(session: Option<SessionUser>)
  {
    session.Some? && session.value.role == "Admin"
  }

  predicate IsEmployee(session: Option<SessionUser>)
  {
    session.Some? && session.value.role == "Employee"
  }

  /** No session counts as a plain user. */
  predicate IsUser(session: Option<SessionUser>)
  {
    session.None? || session.value.role == "User"
  }

  /** The status of the signed-in user, or "" with no session. */
  function StatusOfSession(session: Option<SessionUser>): string
  {
    if session.Some? then session.value.status else ""
  }

  /** AppLayout. */
  function Route(loading: bool, session: Option<SessionUser>, pathname: string): (v: View)
    ensures loading <==> v == Spinner
    ensures v.Render? ==> v.sidebar == !IsUser(session)
    ensures v.Redirect? ==> v.target in {"/", "/user/dashboard", "/admin/dashboard"}
  {
    if loading then Spinner
    else if session.Some? && session.value.status == "suspended" then SuspendedPage
    else if session.Some? && session.value.status == "terminated" then TerminatedPage
    else if session.Some? && session.value.status == "resigned" then ResignedPage
    else if (!IsEmployee(session) && Contains(pathname, "user")) || (!IsAdmin(session) && Contains(pathname, "admin")) then
      Redirect("/")
    else if IsEmployee(session) && !Contains(pathname, "user") then Redirect("/user/dashboard")
    else if IsAdmin(session) && !Contains(pathname, "admin") then Redirect("/admin/dashboard")
    else Render(!IsUser(session))
  }

  /** Exactly one of the three role flags holds for a session with one of the three roles, none of them otherwise. */
  lemma RoleFlags(session: Option<SessionUser>)
    ensures !(IsAdmin(session) && IsEmployee(session)) && !(IsAdmin(session) && IsUser(session))
    ensures !(IsEmployee(session) && IsUser(session))
    ensures session.Some? && session.value.role !in {"Admin", "Employee", "User"} ==>
      !IsAdmin(session) && !IsEmployee(session) && !IsUser(session)
  {
  }

  /** A blocked status shows its checkpoint whatever the role and path, in the order suspended, terminated, resigned. */
  lemma CheckpointsComeFirst(session: Option<SessionUser>, pathname: string)
    requires session.Some?
    ensures session.value.status == "suspended" ==> Route(false, session, pathname) == SuspendedPage
    ensures session.value.status == "terminated" ==> Route(false, session, pathname) == TerminatedPage
    ensures session.value.status == "resigned" ==> Route(false, session, pathname) == ResignedPage
  {
  }

  /** No checkpoint applies. */
  predicate Cleared(session: Option<SessionUser>)
  {
    StatusOfSession(session) !in {"suspended", "terminated", "resigned"}
  }

  /**
   * Which pages render: an admin only on paths containing 'admin' and not
   * 'user'; an employee only on paths containing 'user' and not 'admin';
   * everyone else (no session, 'User', any other role) only on paths with
   * neither.
   */
  lemma RenderedPaths(session: Option<SessionUser>, pathname: string)
    requires Cleared(session)
    ensures Route(false, session, pathname).Render? <==>
      if IsAdmin(session) then Contains(pathname, "admin") && !Contains(pathname, "user")
      else if IsEmployee(session) then Contains(pathname, "user") && !Contains(pathname, "admin")
      else !Contains(pathname, "user") && !Contains(pathname, "admin")
  {
  }

  lemma HomePath()
    ensures !Contains("/", "user") && !Contains("/", "admin")
  {
  }

  lemma UserDashboardPath()
    ensures Contains("/user/dashboard", "user") && !Contains("/user/dashboard", "admin")
  {
    assert OccursAt("/user/dashboard", "user", 1);
    var s := "/user/dashboard";
    forall i | 0 <= i <= |s| - 5
      ensures !OccursAt(s, "admin", i)
    {
      assert s[i..i + 5][1] == s[i + 1];
      assert s[i] != 'a' || s[i + 1] != 'd';
    }
  }

  lemma AdminDashboardPath()
    ensures Contains("/admin/dashboard", "admin") && !Contains("/admin/dashboard", "user")
  {
    assert OccursAt("/admin/dashboard", "admin", 1);
    if Contains("/admin/dashboard", "user") {
      ContainsNeedsFirstChar("/admin/dashboard", "user");
    }
  }

  /** Where a redirect lands, for a cleared session that is not loading. */
  function Follow(session: Option<SessionUser>, pathname: string): View
  {
    var v := Route(false, session, pathname);
    if v.Redirect? then Route(false, session, v.target) else v
  }

  /**
   * Redirects settle: a cleared session reaches a rendered page after at most
   * two redirects (an employee on an admin path goes to '/' and then to the
   * user dashboard).
   */
  lemma RedirectsSettle(session: Option<SessionUser>, pathname: string)
    requires Cleared(session)
    ensures var v := Follow(session, pathname);
      v.Render? || (v.Redirect? && Route(false, session, v.target).Render?)
  {
    HomePath();
    UserDashboardPath();
    AdminDashboardPath();
  }
}
