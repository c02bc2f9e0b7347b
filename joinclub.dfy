/** The invite link page of pages/JoinClub.tsx: where it sends the visitor and what it leaves for the dashboard. */
module InviteRedirect {
  import opened Wrappers
  import opened Types
  import opened Api

  /** The effect's result: the `pendingClubJoin` value written to session storage, if any, and the route navigated to. */
  datatype Redirect = Redirect(pendingClubJoin: Option<string>, target: string)

  function JoinRedirect(code: Option<string>, currentUser: Option<User>): (r: Redirect)
    ensures Truthy(code) ==> r.pendingClubJoin == code
    ensures Truthy(code) && currentUser.Some? ==> r.target == "/dashboard"
    ensures Truthy(code) && currentUser.None? ==> r.target == "/?invite=true"
    ensures !Truthy(code) ==> r.target == "/dashboard" && r.pendingClubJoin.None?
  {
    if Truthy(code) then
      Redirect(code, if currentUser.Some? then "/dashboard" else "/?invite=true")
    else
      Redirect(None, "/dashboard")
  }
}
