/**
 * The browser-side session (frontend/src/context/AuthContext.jsx): role
 * normalisation, the alias groups and the permission table, the permission
 * check on the signed-in user, and the `login`/`signOut` state changes.
 * Storage in `localStorage` and the network calls are left out.
 */
module AuthContext {
  import opened Wrappers
  import opened JsStrings
  import opened EmailService

  /** `String(role).trim().toLowerCase()`, or `""` for a falsy role. */
  function NormalizeRole(role: Option<string>): (r: string)
    ensures !Truthy(role) ==> r == ""
    ensures Truthy(role) ==> |r| == |Trim(role.value)|
    ensures Truthy(role) ==> r == ToLower(Trim(role.value))
    ensures r == [] || (!IsSpace(r[0]) && !IsSpace(r[|r| - 1]))
  {
    if !Truthy(role) then ""
    else
      var t := Trim(role.value);
      var r := ToLower(t);
      LowerKeepsEnds(t);
      r
  }

  /** Lower-casing neither creates nor removes whitespace at either end. */
  lemma LowerKeepsEnds(t: string)
    ensures t != [] ==> (IsSpace(ToLower(t)[0]) <==> IsSpace(t[0]))
    ensures t != [] ==> (IsSpace(ToLower(t)[|t| - 1]) <==> IsSpace(t[|t| - 1]))
  {
    if t != [] {
      LowerSpace(t[0]);
      LowerSpace(t[|t| - 1]);
    }
  }

  lemma LowerSpace(c: char)
    ensures IsSpace(LowerChar(c)) <==> IsSpace(c)
  {
  }

  /** A normalised role normalises to itself. */
  lemma NormalizeRoleIdempotent(role: Option<string>)
    ensures NormalizeRole(Some(NormalizeRole(role))) == NormalizeRole(role)
  {
    var r := NormalizeRole(role);
    if r != "" {
      TrimOfTrimmed(r);
      assert Truthy(role);
      ToLowerIdempotent(Trim(role.value));
    }
  }

  const ShipperAliases := ["shipper", "shp", "shipping", "shipping_staff", "shipper_user"]
  const AdminAliases := ["admin", "administrator", "superadmin"]
  const ViewerAliases := ["viewer", "read-only", "readonly"]

  /** The alias groups, in the order `Object.entries` visits them. */
  const Aliases: seq<(string, seq<string>)> :=
    [("shipper", ShipperAliases), ("admin", AdminAliases), ("viewer", ViewerAliases)]

  /** The permissions each group key grants. */
  const PermsByRole: map<string, seq<string>> := map[
    "shipper" := ["use_templates", "send_docs", "export_docs"],
    "admin" := ["use_templates", "send_docs", "export_docs", "manage_templates"],
    "viewer" := ["use_templates"]]

  /** `permsByRole[k] || []`. */
  function Granted(k: string): seq<string> {
    if k in PermsByRole then PermsByRole[k] else []
  }

  /** The key of the first alias group, from index `i` on, that lists `role`. */
  function GroupFrom(role: string, i: nat): (g: Option<string>)
    requires i <= |Aliases|
    ensures g.None? <==> forall j | i <= j < |Aliases| :: role !in Aliases[j].1
    ensures g.Some? ==> exists j | i <= j < |Aliases| :: Aliases[j].0 == g.value && role in Aliases[j].1
    decreases |Aliases| - i
  {
    if i == |Aliases| then None
    else if role in Aliases[i].1 then Some(Aliases[i].0)
    else GroupFrom(role, i + 1)
  }

  /** Whether a normalised role grants a permission: the first group listing the role decides, then the table itself. */
  function RolePermits(role: string, permission: string): (b: bool)
    ensures role == "" ==> !b
  {
    if role == "" then false
    else match GroupFrom(role, 0)
      case Some(k) => permission in Granted(k)
      case None => role in PermsByRole && permission in PermsByRole[role]
  }

  /** Whether a raw role grants a permission, once normalised. */
  function Permits(roleRaw: Option<string>, permission: string): (b: bool)
    ensures NormalizeRole(roleRaw) == "" ==> !b
  {
    RolePermits(NormalizeRole(roleRaw), permission)
  }

  /** `roleHasPermission`: the scan over the alias groups, returning at the first group that lists the role. */
  method RoleHasPermission(roleRaw: Option<string>, permission: string) returns (b: bool)
    ensures b == Permits(roleRaw, permission)
  {
    var role := NormalizeRole(roleRaw);
    if role == "" {
      return false;
    }
    var i := 0;
    while i < |Aliases|
      invariant 0 <= i <= |Aliases|
      invariant GroupFrom(role, i) == GroupFrom(role, 0)
    {
      var (k, aliases) := Aliases[i];
      if role in aliases {
        return permission in Granted(k);
      }
      i := i + 1;
    }
    if role in PermsByRole {
      return permission in PermsByRole[role];
    }
    return false;
  }

  /** Every group key is one of its own aliases, so the table is never consulted directly for a grant. */
  lemma KeysAreAliases(role: string)
    requires role in PermsByRole
    ensures GroupFrom(role, 0) == Some(role)
  {
    assert role == "shipper" || role == "admin" || role == "viewer";
    assert ShipperAliases[0] == "shipper" && AdminAliases[0] == "admin" && ViewerAliases[0] == "viewer";
    GroupOfAlias(role);
  }

  /** A role no alias group lists grants nothing. */
  lemma UnrecognisedRoleNoPermission(roleRaw: Option<string>, permission: string)
    requires GroupFrom(NormalizeRole(roleRaw), 0).None?
    ensures !Permits(roleRaw, permission)
  {
    var role := NormalizeRole(roleRaw);
    if role in PermsByRole {
      KeysAreAliases(role);
    }
  }

  /** The alias groups are disjoint, so the group that decides is the only group listing the role. */
  lemma GroupOfAlias(role: string)
    ensures role in ShipperAliases ==> GroupFrom(role, 0) == Some("shipper")
    ensures role in AdminAliases ==> GroupFrom(role, 0) == Some("admin")
    ensures role in ViewerAliases ==> GroupFrom(role, 0) == Some("viewer")
  {
    assert role in AdminAliases ==> role !in ShipperAliases;
    assert role in ViewerAliases ==> role !in ShipperAliases && role !in AdminAliases;
  }

  /** What a normalised role grants, by the group listing it; a role no group lists grants nothing. */
  lemma RoleGrants(role: string, permission: string)
    ensures role in ShipperAliases ==> (RolePermits(role, permission) <==> permission in PermsByRole["shipper"])
    ensures role in AdminAliases ==> (RolePermits(role, permission) <==> permission in PermsByRole["admin"])
    ensures role in ViewerAliases ==> (RolePermits(role, permission) <==> permission in PermsByRole["viewer"])
    ensures role !in ShipperAliases && role !in AdminAliases && role !in ViewerAliases ==> !RolePermits(role, permission)
  {
    GroupOfAlias(role);
    if GroupFrom(role, 0).None? && role in PermsByRole {
      KeysAreAliases(role);
    }
  }

  /** Only the admin aliases may manage templates. */
  lemma ManageTemplatesOnlyAdmin(roleRaw: Option<string>)
    ensures Permits(roleRaw, "manage_templates") <==> NormalizeRole(roleRaw) in AdminAliases
  {
    RoleGrants(NormalizeRole(roleRaw), "manage_templates");
  }

  /** Sending and exporting documents is granted to the shipper and admin aliases only. */
  lemma SendDocsShipperOrAdmin(roleRaw: Option<string>, permission: string)
    requires permission == "send_docs" || permission == "export_docs"
    ensures Permits(roleRaw, permission) <==> NormalizeRole(roleRaw) in ShipperAliases || NormalizeRole(roleRaw) in AdminAliases
  {
    RoleGrants(NormalizeRole(roleRaw), permission);
  }

  /** Every alias group may use templates. */
  lemma UseTemplatesAnyGroup(roleRaw: Option<string>)
    ensures Permits(roleRaw, "use_templates")
        <==> (NormalizeRole(roleRaw) in ShipperAliases || NormalizeRole(roleRaw) in AdminAliases
              || NormalizeRole(roleRaw) in ViewerAliases)
  {
    RoleGrants(NormalizeRole(roleRaw), "use_templates");
  }

  /** The signed-in user as the page stores it; `roles` is set when the record carries an array. */
  datatype Account = Account(
    name: Option<string>,
    email: Option<string>,
    companyName: Option<string>,
    role: Option<string>,
    roleName: Option<string>,
    roles: Option<seq<Option<string>>>)

  /** `user.role || user.roleName`. */
  function EffectiveRole(u: Account): (r: Option<string>)
    ensures Truthy(u.role) ==> r == u.role
    ensures !Truthy(u.role) ==> r == u.roleName
  {
    if Truthy(u.role) then u.role else u.roleName
  }

  /** `hasPermission`: no user has none; an array of roles grants what any element grants; otherwise the user's one role. */
  function HasPermission(user: Option<Account>, permission: string): (b: bool)
    ensures user.None? ==> !b
    ensures user.Some? && user.value.roles.Some? ==>
      (b <==> exists i | 0 <= i < |user.value.roles.value| :: Permits(user.value.roles.value[i], permission))
    ensures user.Some? && user.value.roles.None? ==> b == Permits(EffectiveRole(user.value), permission)
  {
    match user
    case None => false
    case Some(u) =>
      match u.roles
      case Some(rs) => exists i | 0 <= i < |rs| :: Permits(rs[i], permission)
      case None => Permits(EffectiveRole(u), permission)
  }

  /** An empty `roles` array grants nothing, whatever `role` says. */
  lemma EmptyRolesOverrideRole(u: Account, permission: string)
    requires u.roles == Some([])
    ensures !HasPermission(Some(u), permission)
  {
  }

  /** The first argument of `login`: either a `{user, token}` wrapper or a user record, possibly with such fields. */
  datatype LoginArg = LoginArg(account: Account, user: Option<Account>, token: Option<string>)

  /** A `{user, token}` argument: both fields are truthy. */
  predicate IsWrapper(a: LoginArg) {
    a.user.Some? && Truthy(a.token)
  }

  /** The names the context value offers to the pages. */
  const ContextKeys: set<string> := {
    "user", "setUser", "token", "setToken", "loadingProfile", "signIn", "signOut",
    "refreshToken", "hasPermission", "DEFAULT_SENDGRID_FROM", "login"}

  /** The context offers no `sendTemplate`, so a page that calls it calls `undefined`. */
  lemma NoSendTemplate()
    ensures "sendTemplate" !in ContextKeys
  {
  }

  /** The user and token the context holds. */
  class Session {
    var user: Option<Account>
    var token: Option<string>

    constructor(user0: Option<Account>, token0: Option<string>)
      ensures user == user0 && token == token0
    {
      user := user0;
      token := token0;
    }

    /** `login(userObj, tokenStr)`. */
    method Login(userObj: Option<LoginArg>, tokenStr: Option<string>)
      modifies this
      ensures userObj.None? ==> user == old(user) && token == old(token)
      ensures userObj.Some? && IsWrapper(userObj.value) ==>
        user == userObj.value.user && token == userObj.value.token
      ensures userObj.Some? && !IsWrapper(userObj.value) ==>
        user == Some(userObj.value.account) && token == (if Truthy(tokenStr) then tokenStr else old(token))
    {
      if userObj.None? {
        return;
      }
      var a := userObj.value;
      if IsWrapper(a) {
        user := a.user;
        token := a.token;
        return;
      }
      user := Some(a.account);
      if Truthy(tokenStr) {
        token := tokenStr;
      }
    }

    /** `signOut`: both cleared, after which no permission holds. */
    method SignOut()
      modifies this
      ensures user.None? && token.None?
      ensures forall p :: !HasPermission(user, p)
    {
      user := None;
      token := None;
    }
  }
}
