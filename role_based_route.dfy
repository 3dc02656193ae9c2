/** `RoleBasedRoute`: what a guarded route renders from the role hook's state. */
module RoleBasedRoute {
  import opened Wrappers
  import opened UserRoles

  datatype Outcome = Spinner | Redirect(path: string) | Children

  /** `allowedRoles.some(role => roles.includes(role))`. */
  function HasAccess(allowed: seq<AppRole>, roles: seq<AppRole>): (b: bool)
    ensures b <==> exists k :: 0 <= k < |allowed| && allowed[k] in roles
  {
    if allowed == [] then false
    else if allowed[0] in roles then true
    else
      var rest := HasAccess(allowed[1..], roles);
      assert rest <==> exists k :: 1 <= k < |allowed| && allowed[k] in roles by {
        if exists k :: 1 <= k < |allowed| && allowed[k] in roles {
          var k :| 1 <= k < |allowed| && allowed[k] in roles;
          assert allowed[1..][k - 1] in roles;
        }
      }
      rest
  }

  /** The route's decision: a spinner while loading, then `/auth` without a user, then
      `/` without an allowed role, and otherwise the children. */
  function Decide(loading: bool, user: Option<string>, roles: seq<AppRole>, allowed: seq<AppRole>): (o: Outcome)
    ensures o == Spinner <==> loading
    ensures o == Redirect("/auth") <==> !loading && user.None?
    ensures o == Children <==> !loading && user.Some? && HasAccess(allowed, roles)
    ensures o.Redirect? ==> o.path == "/auth" || o.path == "/"
  {
    if loading then Spinner
    else if user.None? then Redirect("/auth")
    else if !HasAccess(allowed, roles) then Redirect("/")
    else Children
  }

  /** An empty list of allowed roles never lets anyone in. */
  lemma EmptyAllowedDenies(loading: bool, user: Option<string>, roles: seq<AppRole>)
    ensures Decide(loading, user, roles, []) != Children
  {
  }

  /** A route that allows a role the user has shows its children once loading is over. */
  lemma AllowedRoleAdmits(user: string, roles: seq<AppRole>, allowed: seq<AppRole>, role: AppRole)
    requires role in allowed && role in roles
    ensures Decide(false, Some(user), roles, allowed) == Children
  {
    var k :| 0 <= k < |allowed| && allowed[k] == role;
  }

  /** The route reads the hook: while auth is loading it shows only the spinner. */
  lemma AuthLoadingShowsSpinner(state: RoleState, user: Option<string>, allowed: seq<AppRole>)
    ensures Decide(state.ReportedLoading(true), user, state.roles, allowed) == Spinner
  {
  }
}
