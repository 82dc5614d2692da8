/** The `auth_state` dictionary the authenticator stores for a user and
    the spawner reads back. */
module Session {
  import opened Hub
  import Catalog

  /** One entry of a ticket's `authorization.permissions` list; `rsname`
      is the name of the resource it grants. */
  datatype PermissionClaim = PermissionClaim(rsname: Option<string>)

  /** Each field is `None` when the key is absent or holds Python `None`;
      `otherKeys` records whether the dictionary holds any further key
      (the upstream login's `id_token`, `refresh_token`, ...). */
  datatype AuthState = AuthState(
    accessToken: Option<string>,                  // access_token (from the upstream login)
    contextToken: Option<string>,                 // context_token
    permissions: Option<seq<PermissionClaim>>,    // permissions
    context: Option<string>,                      // context (form-encoded)
    namespace: Option<string>,                    // namespace
    labelText: Option<string>,                    // label
    resources: Option<Catalog.Document>,          // resources
    roles: Option<seq<string>>,                   // roles
    wpsUrl: Option<string>,                       // D4SCIENCE_WPS_URL
    otherKeys: bool)

  /** The empty dictionary. */
  const EmptyAuthState := AuthState(None, None, None, None, None, None, None, None, None, false)

  /** `if auth_state:` -- present and not the empty dictionary. */
  predicate Present(a: Option<AuthState>) {
    a.Some? && a.value != EmptyAuthState
  }

  /** `[claim["rsname"] for claim in permissions]`; `None` where a claim
      has no `rsname` and the comprehension raises KeyError. */
  function ResourceNames(perms: seq<PermissionClaim>): (r: Option<seq<string>>)
    ensures r.Some? <==> forall i :: 0 <= i < |perms| ==> perms[i].rsname.Some?
    ensures r.Some? ==> (|r.value| == |perms|
      && forall i :: 0 <= i < |perms| ==> r.value[i] == perms[i].rsname.value)
  {
    if perms == [] then Some([])
    else
      var rest := ResourceNames(perms[1..]);
      if perms[0].rsname.None? || rest.None? then None
      else Some([perms[0].rsname.value] + rest.value)
  }
}
