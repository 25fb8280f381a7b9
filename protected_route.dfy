/** The route guard: the children when the signed-in user may see them,
    otherwise a redirect that replaces the current history entry. */
module ProtectedRoute {
  import opened Common

  datatype User = User(role: Option<string>)

  datatype Decision = RenderChildren | Redirect(to: string, replace: bool)

  /** Where a user whose role does not match is sent: their own area. */
  function HomeFor(role: Option<string>): (to: string)
    ensures role == Some("admin") ==> to == "/admin"
    ensures role == Some("rider") ==> to == "/rider"
    ensures role != Some("admin") && role != Some("rider") ==> to == "/"
  {
    if role == Some("admin") then "/admin"
    else if role == Some("rider") then "/rider"
    else "/"
  }

  /** `user` is `None` when nobody is signed in; `role` is the role the route
      requires, where an absent or empty role requires nothing. */
  function Guard(user: Option<User>, role: Option<string>): (d: Decision)
    ensures user.None? ==> d == Redirect("/auth", true)
    ensures d.RenderChildren? <==> user.Some? && (!Truthy(role) || user.value.role == role)
    ensures user.Some? && Truthy(role) && user.value.role != role ==>
      d == Redirect(HomeFor(user.value.role), true)
    ensures d.Redirect? ==> d.replace
  {
    if user.None? then Redirect("/auth", true)
    else if Truthy(role) && user.value.role != role then Redirect(HomeFor(user.value.role), true)
    else RenderChildren
  }

  /** No redirect loop: an admin or rider turned away is sent to an area that
      a guard requiring their own role lets them into. */
  lemma RedirectTargetAdmits(user: User, role: Option<string>, own: string)
    requires own == "admin" || own == "rider"
    requires user.role == Some(own)
    requires Guard(Some(user), role).Redirect?
    ensures Guard(Some(user), role).to == "/" + own
    ensures Guard(Some(user), Some(own)) == RenderChildren
  {
  }
}
