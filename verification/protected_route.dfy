/** The route guard wrapped around the register, post-job, dashboard and profile pages: a
    chain of checks with a fixed precedence that ends in a spinner, a redirect (with the error
    notice it pops up, if any) or the wrapped page. */
module ProtectedRoute {
  import opened Wrappers
  import opened Records

  datatype Route = Spinner | Redirect(to: string, notice: Option<string>) | Render

  const ConnectNotice: string := "Please connect your wallet to access this page"
  const RegisterNotice: string := "Please register to access this page"
  const PermissionNotice: string := "You do not have permission to access this page"

  /** The role name the guard derives from a user type: anything other than the strings "0"
      and "1" (the numbers 0 and 1 included) counts as "both". */
  function RouteRole(code: RoleCode): (r: string)
    ensures r == "client" <==> CodeIs(code, "0")
    ensures r == "freelancer" <==> CodeIs(code, "1")
    ensures r in {"client", "freelancer", "both"}
  {
    if CodeIs(code, "0") then "client" else if CodeIs(code, "1") then "freelancer" else "both"
  }

  /** The role check lets the user through. */
  predicate RolePasses(allowedRoles: seq<string>, code: RoleCode) {
    RouteRole(code) in allowedRoles || "both" in allowedRoles
  }

  /** The routing decision, given the provider's `loading`, `account` and `user` and the
      guard's `requireAuth`, `allowedRoles` and `redirectTo`. */
  function Decide(loading: bool, requireAuth: bool, allowedRoles: seq<string>, redirectTo: string,
                  account: Option<string>, user: Option<UserRecord>): (r: Route)
    ensures loading ==> r == Spinner
    ensures !loading && requireAuth && !Truthy(account) ==>
      r == Redirect(redirectTo, Some(ConnectNotice))
    ensures !loading && requireAuth && Truthy(account) && !IsRegisteredUser(user) ==>
      r == Redirect("/register", Some(RegisterNotice))
    ensures r == Redirect("/dashboard", Some(PermissionNotice)) ==>
      |allowedRoles| > 0 && IsRegisteredUser(user) && !RolePasses(allowedRoles, user.value.userType)
    ensures r == Render <==>
      !loading && (requireAuth ==> Truthy(account) && IsRegisteredUser(user))
      && (|allowedRoles| > 0 && IsRegisteredUser(user) ==> RolePasses(allowedRoles, user.value.userType))
      && !(!requireAuth && Truthy(account) && IsRegisteredUser(user))
  {
    if loading then Spinner
    else if requireAuth && !Truthy(account) then Redirect(redirectTo, Some(ConnectNotice))
    else if requireAuth && Truthy(account) && !IsRegisteredUser(user) then
      Redirect("/register", Some(RegisterNotice))
    else if |allowedRoles| > 0 && IsRegisteredUser(user) && !RolePasses(allowedRoles, user.value.userType) then
      Redirect("/dashboard", Some(PermissionNotice))
    else if !requireAuth && Truthy(account) && IsRegisteredUser(user) then Redirect("/dashboard", None)
    else Render
  }

  /** The guard as the dashboard and profile routes use it: every default but `requireAuth`. */
  function DecideDefault(loading: bool, account: Option<string>, user: Option<UserRecord>): (r: Route)
    ensures !loading && !Truthy(account) ==> r == Redirect("/", Some(ConnectNotice))
    ensures r == Render <==> !loading && Truthy(account) && IsRegisteredUser(user)
  {
    Decide(loading, true, [], "/", account, user)
  }

  /** A role list containing "both" (the post-job route's ["client", "both"]) admits every
      registered user, whatever the user type: such a route never redirects for permission. */
  lemma {:induction false} BothAdmitsEveryRole(loading: bool, allowedRoles: seq<string>,
                                              account: Option<string>, user: Option<UserRecord>)
    requires "both" in allowedRoles
    ensures Decide(loading, true, allowedRoles, "/", account, user) == Render
        <==> !loading && Truthy(account) && IsRegisteredUser(user)
    ensures Decide(loading, true, allowedRoles, "/", account, user) != Redirect("/dashboard", Some(PermissionNotice))
  {
    if IsRegisteredUser(user) {
      assert RolePasses(allowedRoles, user.value.userType);
    }
  }

  /** Without "both" in the list, a registered, connected user whose role is not listed is sent
      to the dashboard; a listed role renders the page. */
  lemma RoleCheckDecides(allowedRoles: seq<string>, account: Option<string>, user: Option<UserRecord>)
    requires "both" !in allowedRoles && |allowedRoles| > 0
    requires Truthy(account) && IsRegisteredUser(user)
    ensures RouteRole(user.value.userType) in allowedRoles ==>
      Decide(false, true, allowedRoles, "/", account, user) == Render
    ensures RouteRole(user.value.userType) !in allowedRoles ==>
      Decide(false, true, allowedRoles, "/", account, user) == Redirect("/dashboard", Some(PermissionNotice))
  {
  }

  /** An empty role list makes no role check: the outcome is the one of the list ["both"]. */
  lemma EmptyRolesNoCheck(loading: bool, requireAuth: bool, redirectTo: string,
                          account: Option<string>, user: Option<UserRecord>)
    ensures Decide(loading, requireAuth, [], redirectTo, account, user)
         == Decide(loading, requireAuth, ["both"], redirectTo, account, user)
  {
  }

  /** The register route (requireAuth false) sends a connected registered user to the
      dashboard without a notice and renders the page for everybody else. */
  lemma RegisterRouteDecides(account: Option<string>, user: Option<UserRecord>)
    ensures Truthy(account) && IsRegisteredUser(user) ==>
      Decide(false, false, [], "/", account, user) == Redirect("/dashboard", None)
    ensures !(Truthy(account) && IsRegisteredUser(user)) ==>
      Decide(false, false, [], "/", account, user) == Render
  {
  }

  /** A freelancer registered through the form has the number 1 as its code, which the guard
      reads as "both"; only a string code "1" is a freelancer to it. */
  lemma NumericCodeReadsAsBoth(n: int)
    ensures RouteRole(NumCode(n)) == "both"
    ensures RouteRole(StrCode("1")) == "freelancer" && RouteRole(StrCode("0")) == "client"
  {
  }
}
