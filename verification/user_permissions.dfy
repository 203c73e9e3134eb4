/**
 * The DRF permission classes of the users app as decision procedures over
 * the request: allow, deny with the message DRF reports, or the
 * configuration error raised when the view declares nothing to check.
 */
module Permissions {
  import opened Wrappers

  /** What the permission classes read of a request and its user. */
  datatype Request = Request(
    httpMethod: string,
    authenticated: bool,
    active: bool,
    superuser: bool,
    staff: bool,
    permissions: set<string>,
    groups: set<string>)

  /** The outcome: allowed, `PermissionDenied(message)`, or a plain `Exception(message)`. */
  datatype Decision = Allow | Deny(message: string) | ConfigError(message: string)

  /** DRF's `SAFE_METHODS` */
  const SafeMethods: set<string> := {"GET", "HEAD", "OPTIONS"}

  const NotAuthenticatedMessage: string := "Authentication credentials were not provided."

  const PermissionsNotSetMessage: string := "Required permissions not set in view. Please define 'required_permissions' attribute."

  const RolesNotSetMessage: string := "Required roles not set in view. Please define 'required_roles' attribute."

  /** The position of the first required name, in list order, that is not held; `|required|` when all are held. */
  function MissingIndex(required: seq<string>, held: set<string>): (k: nat)
    ensures k <= |required|
    ensures k < |required| ==> required[k] !in held
    ensures forall j :: 0 <= j < k ==> required[j] in held
    decreases |required|
  {
    if required == [] then 0
    else if required[0] !in held then 0
    else 1 + MissingIndex(required[1..], held)
  }

  /** The first required name that is not held; None when all are held. */
  function FirstMissing(required: seq<string>, held: set<string>): (r: Option<string>)
    ensures r.None? <==> forall k :: 0 <= k < |required| ==> required[k] in held
    ensures r.Some? ==> r.value !in held && r.value == required[MissingIndex(required, held)]
  {
    var k := MissingIndex(required, held);
    if k < |required| then Some(required[k]) else None
  }

  /**
   * The shared order of checks of `HasPermission` and `HasRole`: nothing
   * declared is a configuration error, even for an exempt method; then an
   * exempt method is allowed; then an anonymous user is denied; then the
   * first missing name is reported.
   */
  function RequiredCheck(required: seq<string>, exempt: seq<string>, req: Request, held: set<string>,
                         notSetMessage: string, what: string): (d: Decision)
    ensures required == [] ==> d == ConfigError(notSetMessage)
    ensures d == Allow <==>
      required != [] && (req.httpMethod in exempt || (req.authenticated && forall k :: 0 <= k < |required| ==> required[k] in held))
  {
    if required == [] then ConfigError(notSetMessage)
    else if req.httpMethod in exempt then Allow
    else if !req.authenticated then Deny(NotAuthenticatedMessage)
    else match FirstMissing(required, held)
      case None => Allow
      case Some(name) => Deny("You do not have the required " + what + ": '" + name + "' to perform this action.")
  }

  /**
   * Django's `user.has_perm(p)` with the model backend: an inactive user has
   * no permission, an active superuser has every one, and anyone else has
   * the permissions granted to them (`permissions`).
   */
  predicate HasPerm(req: Request, p: string) {
    req.active && (req.superuser || p in req.permissions)
  }

  /** The required names for which `has_perm` answers True. */
  function PermsHeld(req: Request, required: seq<string>): (held: set<string>)
    ensures forall k :: 0 <= k < |required| ==> (required[k] in held <==> HasPerm(req, required[k]))
  {
    set p | p in required && HasPerm(req, p)
  }

  /** `HasPermission.has_permission` */
  function HasPermission(requiredPermissions: seq<string>, exemptMethods: seq<string>, req: Request): (d: Decision)
    ensures requiredPermissions == [] ==> d == ConfigError(PermissionsNotSetMessage)
    ensures d == Allow <==>
      requiredPermissions != []
      && (req.httpMethod in exemptMethods
          || (req.authenticated && forall k :: 0 <= k < |requiredPermissions| ==> HasPerm(req, requiredPermissions[k])))
  {
    RequiredCheck(requiredPermissions, exemptMethods, req, PermsHeld(req, requiredPermissions),
                  PermissionsNotSetMessage, "permission")
  }

  /** `HasRole.has_permission`: group membership in place of permissions. */
  function HasRole(requiredRoles: seq<string>, exemptMethods: seq<string>, req: Request): (d: Decision)
    ensures requiredRoles == [] ==> d == ConfigError(RolesNotSetMessage)
    ensures d == Allow <==>
      requiredRoles != []
      && (req.httpMethod in exemptMethods
          || (req.authenticated && forall k :: 0 <= k < |requiredRoles| ==> requiredRoles[k] in req.groups))
  {
    RequiredCheck(requiredRoles, exemptMethods, req, req.groups, RolesNotSetMessage, "role")
  }

  /**
   * `HasPermission`: an undeclared list is an error even for exempt methods;
   * exempt methods need no login; an anonymous user is denied.
   */
  lemma HasPermissionOutcomes(required: seq<string>, exempt: seq<string>, req: Request)
    ensures required == [] ==> HasPermission(required, exempt, req).ConfigError?
    ensures required != [] && req.httpMethod in exempt ==> HasPermission(required, exempt, req) == Allow
    ensures required != [] && req.httpMethod !in exempt && !req.authenticated ==>
      HasPermission(required, exempt, req) == Deny(NotAuthenticatedMessage)
  {
  }

  /** An authenticated user on a non-exempt method is allowed with every permission, else denied naming the first missing. */
  lemma HasPermissionNamesFirstMissing(required: seq<string>, exempt: seq<string>, req: Request)
    ensures required != [] && req.httpMethod !in exempt && req.authenticated
      && FirstMissing(required, PermsHeld(req, required)).None?
      ==> HasPermission(required, exempt, req) == Allow
    ensures required != [] && req.httpMethod !in exempt && req.authenticated
      && FirstMissing(required, PermsHeld(req, required)).Some?
      ==> HasPermission(required, exempt, req)
          == Deny("You do not have the required permission: '" + FirstMissing(required, PermsHeld(req, required)).value
                  + "' to perform this action.")
  {
  }

  /** `HasRole`: the same order of checks, on the user's groups. */
  lemma HasRoleOutcomes(required: seq<string>, exempt: seq<string>, req: Request)
    ensures required == [] ==> HasRole(required, exempt, req).ConfigError?
    ensures HasRole(required, exempt, req) == Allow <==>
      required != [] && (req.httpMethod in exempt || (req.authenticated && forall k :: 0 <= k < |required| ==> required[k] in req.groups))
    ensures required != [] && req.httpMethod !in exempt && req.authenticated && FirstMissing(required, req.groups).Some? ==>
      HasRole(required, exempt, req)
        == Deny("You do not have the required role: '" + FirstMissing(required, req.groups).value + "' to perform this action.")
  {
  }

  /** Holding more permissions never turns an allowed request into a denied one. */
  lemma {:induction false} MorePermissionsStillAllowed(required: seq<string>, exempt: seq<string>, req: Request,
                                                        extra: set<string>)
    requires HasPermission(required, exempt, req) == Allow
    ensures HasPermission(required, exempt, req.(permissions := req.permissions + extra)) == Allow
  {
    var more := req.(permissions := req.permissions + extra);
    assert required != [];
    if more.httpMethod !in exempt {
      assert forall k :: 0 <= k < |required| ==> HasPerm(more, required[k]) by {
        forall k | 0 <= k < |required| ensures HasPerm(more, required[k]) {
          assert HasPerm(req, required[k]);
        }
      }
    }
  }

  /**
   * Through `has_perm`, an authenticated active superuser passes every
   * declared requirement, and an authenticated inactive user fails every
   * one on a method that is not exempt.
   */
  lemma SuperuserAndInactive(required: seq<string>, exempt: seq<string>, req: Request)
    requires required != [] && req.authenticated
    ensures req.active && req.superuser ==> HasPermission(required, exempt, req) == Allow
    ensures !req.active && req.httpMethod !in exempt ==>
      HasPermission(required, exempt, req)
        == Deny("You do not have the required permission: '" + required[0] + "' to perform this action.")
  {
    if !req.active && req.httpMethod !in exempt {
      assert MissingIndex(required, PermsHeld(req, required)) == 0;
    }
  }

  /** `IsAdminOrReadOnly.has_permission` */
  function IsAdminOrReadOnly(req: Request): (allowed: bool)
    ensures req.httpMethod in SafeMethods ==> allowed
    ensures req.httpMethod !in SafeMethods ==> (allowed <==> req.authenticated && req.superuser)
  {
    if req.httpMethod in SafeMethods then true else req.authenticated && req.superuser
  }

  /** `IsOrganizer.has_permission` */
  function IsOrganizer(req: Request): (allowed: bool)
    ensures allowed <==> req.authenticated && req.staff
  {
    if req.authenticated && req.staff then true else false
  }

  /** Writes are for authenticated superusers only; an anonymous user can only read. */
  lemma WritesNeedSuperuser(req: Request)
    ensures !req.authenticated ==> (IsAdminOrReadOnly(req) <==> req.httpMethod in {"GET", "HEAD", "OPTIONS"})
    ensures req.httpMethod == "POST" ==> (IsAdminOrReadOnly(req) <==> req.authenticated && req.superuser)
    ensures req.httpMethod == "DELETE" && !req.superuser ==> !IsAdminOrReadOnly(req)
  {
  }
}
