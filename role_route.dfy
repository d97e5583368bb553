/** The role gate in front of restricted pages (`src/components/role-protected-route.tsx`).
    The roles come from the `<namespace>/roles` claim of the access token;
    getting and decoding the token are left to Auth0, so their outcome is an
    input. */
module RoleRoute {
  import opened Wrappers

  /** `userHasRequiredRole`: no required roles (absent or empty) lets
      everyone in; otherwise one shared role is enough. */
  predicate HasRequiredRole(requiredRoles: Option<seq<string>>, userRoles: seq<string>)
  {
    requiredRoles.None? || |requiredRoles.value| == 0 ||
    exists i :: 0 <= i < |requiredRoles.value| && requiredRoles.value[i] in userRoles
  }

  /** What the route renders. */
  datatype Outcome = Loader | Page | AccessDenied

  function Decide(authLoading: bool, rolesLoading: bool, isAuthenticated: bool,
                  requiredRoles: Option<seq<string>>, userRoles: seq<string>): (o: Outcome)
    ensures authLoading || rolesLoading ==> o == Loader
    ensures !authLoading && !rolesLoading ==>
      (o == Page <==> isAuthenticated && HasRequiredRole(requiredRoles, userRoles)) &&
      (o == AccessDenied <==> isAuthenticated && !HasRequiredRole(requiredRoles, userRoles)) &&
      (o == Loader <==> !isAuthenticated)
  {
    if authLoading || rolesLoading then Loader
    else if isAuthenticated && HasRequiredRole(requiredRoles, userRoles) then Page
    else if isAuthenticated then AccessDenied
    else Loader
  }

  /** A user without roles sees a restricted page only when it requires
      none; adding roles never takes access away. */
  lemma RolesMonotone(requiredRoles: Option<seq<string>>, roles: seq<string>, more: seq<string>)
    ensures HasRequiredRole(requiredRoles, []) <==> requiredRoles.None? || |requiredRoles.value| == 0
    ensures (forall r :: r in roles ==> r in more) && HasRequiredRole(requiredRoles, roles) ==>
      HasRequiredRole(requiredRoles, more)
  {
  }

  /** The token's roles claim as decoded: `None` when getting or decoding
      the token failed, `Some(None)` when it has no roles claim. */
  type TokenRoles = Option<Option<seq<string>>>

  /** `claim || []`, and `[]` after a failure. */
  function RolesFrom(token: TokenRoles): (r: seq<string>)
    ensures token.Some? && token.value.Some? ==> r == token.value.value
    ensures !(token.Some? && token.value.Some?) ==> r == []
  {
    if token.Some? && token.value.Some? then token.value.value else []
  }

  class Route {
    var userRoles: seq<string>
    var isRolesLoading: bool

    constructor ()
      ensures userRoles == [] && isRolesLoading
    {
      userRoles := [];
      isRolesLoading := true;
    }

    /** `fetchUserRoles` has finished: an authenticated user's roles come
        from the token; an unauthenticated one's stay as they were. Either
        way the roles are no longer loading. */
    method RolesFetched(isAuthenticated: bool, token: TokenRoles)
      modifies this
      ensures !isRolesLoading
      ensures isAuthenticated ==> userRoles == RolesFrom(token)
      ensures !isAuthenticated ==> userRoles == old(userRoles)
    {
      if isAuthenticated {
        userRoles := RolesFrom(token);
      }
      isRolesLoading := false;
    }
  }
}
