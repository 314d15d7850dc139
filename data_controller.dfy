/**
 * The dashboard data endpoints (backend/src/controllers/dataController.js)
 * and the company/role list they publish (backend/src/config/roles.js).
 */
module DataController {
  import opened Wrappers
  import opened JsStrings
  import AuthMiddleware

  /** A company and the roles one can sign up with there. */
  datatype Company = Company(name: string, roles: seq<string>)

  const CompaniesRoles: seq<Company> := [
    Company("Factory", ["Company Owner", "Admin"]),
    Company("Shipper", ["Company Owner", "Admin", "Documentation Department", "Accounts Department"]),
    Company("Transporter", ["Company Owner", "Admin", "Truck Driver"]),
    Company("Clearance Agent", ["Company Owner", "Admin", "Documentation Department", "Accounts Department"])
  ]

  /** The fields of `req.user` the handler reads; `None` is an absent field. */
  datatype RequestUser = RequestUser(name: Option<string>, companyName: Option<string>, role: Option<string>)

  datatype DataReply =
    | Forbidden(message: string)      // 403 `{ message }`
    | Welcome(message: string)        // `{ ok: true, data: { message } }`
    | Crashed                         // 500: a property of `undefined` was read
    | Companies(companies: seq<Company>)

  /** A template-literal interpolation: an absent value prints as `undefined`. */
  function Show(o: Option<string>): string {
    if o.Some? then o.value else "undefined"
  }

  /**
   * `getCompanyRoleData`: the company is compared first, then the role,
   * both case-insensitively; the welcome names the company and role of the
   * URL, not the stored ones. Lower-casing an absent field throws.
   */
  function GetCompanyRoleData(user: RequestUser, company: string, role: string): (r: DataReply)
    ensures user.companyName.None? ==> r == Crashed
    ensures user.companyName.Some? && ToLower(user.companyName.value) != ToLower(company)
            ==> r == Forbidden("Forbidden: company mismatch")
    ensures user.companyName.Some? && ToLower(user.companyName.value) == ToLower(company) && user.role.None?
            ==> r == Crashed
    ensures user.companyName.Some? && ToLower(user.companyName.value) == ToLower(company) && user.role.Some?
            && ToLower(user.role.value) != ToLower(role)
            ==> r == Forbidden("Forbidden: role mismatch")
    ensures r.Welcome? <==> user.companyName.Some? && user.role.Some?
                            && ToLower(user.companyName.value) == ToLower(company)
                            && ToLower(user.role.value) == ToLower(role)
    ensures r.Welcome? ==> r.message == "Welcome " + Show(user.name) + " to " + company + " - " + role + " dashboard"
  {
    if user.companyName.None? then Crashed
    else if ToLower(user.companyName.value) != ToLower(company) then Forbidden("Forbidden: company mismatch")
    else if user.role.None? then Crashed
    else if ToLower(user.role.value) != ToLower(role) then Forbidden("Forbidden: role mismatch")
    else Welcome("Welcome " + Show(user.name) + " to " + company + " - " + role + " dashboard")
  }

  /** `getCompaniesRoles`: the whole table. */
  function GetCompaniesRoles(): (r: DataReply)
    ensures r == Companies(CompaniesRoles)
    ensures |r.companies| == 4
  {
    Companies(CompaniesRoles)
  }

  /** What `req.user` holds after `protect`: no name and no company. */
  function FromPrincipal(p: AuthMiddleware.Principal): (u: RequestUser)
    ensures u.name.None? && u.companyName.None? && u.role == p.role
  {
    RequestUser(None, None, p.role)
  }

  /** Behind `protect` the company field is never set, so every request fails with 500. */
  lemma ProtectedRequestsCrash(p: AuthMiddleware.Principal, company: string, role: string)
    ensures GetCompanyRoleData(FromPrincipal(p), company, role) == Crashed
  {
  }

  /** Every company's role list is free of duplicates, and the company names are distinct. */
  lemma CompaniesRolesDistinct()
    ensures forall i, j :: 0 <= i < j < |CompaniesRoles| ==> CompaniesRoles[i].name != CompaniesRoles[j].name
    ensures forall c, i, j :: c in CompaniesRoles && 0 <= i < j < |c.roles| ==> c.roles[i] != c.roles[j]
  {
  }
}
