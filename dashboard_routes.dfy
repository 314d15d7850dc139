/**
 * The dashboard path of each company and role
 * (frontend/src/utils/dashboardRoutes.js), the redirect that Login and Signup
 * compute from it, and the company list Signup falls back on
 * (frontend/src/pages/Auth/Signup.jsx).
 */
module DashboardRoutes {
  import opened Wrappers
  import opened DataController
  import opened ProtectedRoute

  /** One role of a company and the path of its dashboard. */
  datatype Entry = Entry(role: string, path: string)

  const FactoryRoutes: seq<Entry> := [
    Entry("Company Owner", "/factory/company-owner"),
    Entry("Admin", "/factory/admin")]

  const ShipperRoutes: seq<Entry> := [
    Entry("Company Owner", "/shipper/company-owner"),
    Entry("Admin", "/shipper/admin"),
    Entry("Documentation Department", "/shipper/documentation"),
    Entry("Logistics Department", "/shipper/logistics"),
    Entry("Accounts Department", "/shipper/accounts"),
    Entry("Office Boy", "/shipper/office-boy"),
    Entry("Stone Marker", "/shipper/stone-marker")]

  const TransporterRoutes: seq<Entry> := [
    Entry("Company Owner", "/transporter/company-owner"),
    Entry("Admin", "/transporter/admin"),
    Entry("Truck Driver", "/transporter/truck-driver")]

  const ClearanceRoutes: seq<Entry> := [
    Entry("Company Owner", "/clearance-agents/company-owner"),
    Entry("Admin", "/clearance-agents/admin"),
    Entry("Documentation Department", "/clearance-agents/documentation"),
    Entry("Logistics Department", "/clearance-agents/logistics"),
    Entry("Accounts Department", "/clearance-agents/accounts"),
    Entry("Office Boy", "/clearance-agents/office-boy")]

  /** The table, company by company, in its written order. */
  const Routes: seq<(string, seq<Entry>)> := [
    ("Factory", FactoryRoutes),
    ("Shipper", ShipperRoutes),
    ("Transporter", TransporterRoutes),
    ("Clearance Agent", ClearanceRoutes)]

  /** The path prefix of each company's dashboards. */
  const Prefixes: seq<string> := ["/factory/", "/shipper/", "/transporter/", "/clearance-agents/"]

  /** `table[key]` for an object literal whose keys are distinct: the value of the entry with that key. */
  function Find<T>(table: seq<(string, T)>, key: string): (r: Option<T>)
    ensures r.None? <==> forall i | 0 <= i < |table| :: table[i].0 != key
    ensures r.Some? ==> exists i | 0 <= i < |table| :: table[i] == (key, r.value)
  {
    if table == [] then None
    else if table[0].0 == key then Some(table[0].1)
    else Find(table[1..], key)
  }

  function RolePaths(entries: seq<Entry>): seq<(string, string)> {
    seq(|entries|, i requires 0 <= i < |entries| => (entries[i].role, entries[i].path))
  }

  /**
   * `dashboardRoutes[companyName]?.[role] || "/"`: the dashboard of the
   * user's company and role, or `/` when either is unknown or unset.
   */
  function Redirect(companyName: Option<string>, role: Option<string>): (path: string)
    ensures path == "/" || exists c, e | c in Routes && e in c.1 :: Some(c.0) == companyName && Some(e.role) == role && e.path == path
  {
    if companyName.None? || role.None? then "/"
    else match Find(Routes, companyName.value)
      case None => "/"
      case Some(entries) =>
        match Find(RolePaths(entries), role.value)
        case None => "/"
        case Some(path) =>
          var k :| 0 <= k < |RolePaths(entries)| && RolePaths(entries)[k] == (role.value, path);
          assert entries[k] in entries;
          path
  }

  predicate DistinctKeys<T>(table: seq<(string, T)>) {
    forall i, j | 0 <= i < j < |table| :: table[i].0 != table[j].0
  }

  /** With distinct keys, looking up the key of an entry finds that entry. */
  lemma {:induction false} FindEntry<T>(table: seq<(string, T)>, k: nat)
    requires DistinctKeys(table) && k < |table|
    ensures Find(table, table[k].0) == Some(table[k].1)
  {
    if k > 0 {
      assert table[0].0 != table[k].0;
      assert table[1..][k - 1] == table[k];
      FindEntry(table[1..], k - 1);
    }
  }

  /** Every entry of the table is where the redirect leads for its company and role. */
  lemma RedirectToEntry(i: nat, k: nat)
    requires i < |Routes| && k < |Routes[i].1|
    ensures Redirect(Some(Routes[i].0), Some(Routes[i].1[k].role)) == Routes[i].1[k].path
  {
    FindEntry(Routes, i);
    var entries := Routes[i].1;
    assert DistinctKeys(RolePaths(entries)) by {
      forall a, b | 0 <= a < b < |entries| ensures entries[a].role != entries[b].role {
        RolesDistinctWithin(i, a, b);
      }
    }
    FindEntry(RolePaths(entries), k);
  }

  /** The table entry for a company and role one can sign up with. */
  function EntryIndex(i: nat, j: nat): nat {
    if (i == 1 || i == 3) && j == 3 then 4 else j
  }

  /** Every company and role one can sign up with has a dashboard, and it is a mounted route. */
  lemma EveryPairHasDashboard(i: nat, j: nat)
    requires i < |CompaniesRoles| && j < |CompaniesRoles[i].roles|
    ensures Redirect(Some(CompaniesRoles[i].name), Some(CompaniesRoles[i].roles[j])) != "/"
    ensures Mounted(Redirect(Some(CompaniesRoles[i].name), Some(CompaniesRoles[i].roles[j])))
  {
    var k := EntryIndex(i, j);
    SignUpPairInTable(i, j);
    RedirectToEntry(i, k);
    MountedEntry(i, j);
  }

  lemma SignUpPairInTable(i: nat, j: nat)
    requires i < |CompaniesRoles| && j < |CompaniesRoles[i].roles|
    ensures Routes[i].0 == CompaniesRoles[i].name
    ensures EntryIndex(i, j) < |Routes[i].1| && Routes[i].1[EntryIndex(i, j)].role == CompaniesRoles[i].roles[j]
  {
  }

  lemma MountedEntry(i: nat, j: nat)
    requires i < |CompaniesRoles| && j < |CompaniesRoles[i].roles|
    ensures EntryIndex(i, j) < |Routes[i].1| && Mounted(Routes[i].1[EntryIndex(i, j)].path)
  {
    assert AppRoutes[3 + MountedIndex(i, j)].path == Routes[i].1[EntryIndex(i, j)].path;
  }

  function MountedIndex(i: nat, j: nat): nat {
    if i == 0 then j else if i == 1 then 2 + j else if i == 2 then 6 + j else 9 + j
  }

  /** Each company's dashboards lie under that company's prefix. */
  lemma PathsUnderPrefix(i: nat, e: Entry)
    requires i < |Routes| && e in Routes[i].1
    ensures |Prefixes[i]| <= |e.path| && e.path[..|Prefixes[i]|] == Prefixes[i]
  {
    var k :| 0 <= k < |Routes[i].1| && Routes[i].1[k] == e;
    if i == 0 {
      FactoryUnderPrefix(k);
    } else if i == 1 {
      ShipperUnderPrefix(k);
    } else if i == 2 {
      TransporterUnderPrefix(k);
    } else {
      ClearanceUnderPrefix(k);
    }
  }

  lemma FactoryUnderPrefix(k: nat)
    requires k < |FactoryRoutes|
    ensures |Prefixes[0]| <= |FactoryRoutes[k].path| && FactoryRoutes[k].path[..|Prefixes[0]|] == Prefixes[0]
  {
  }

  lemma ShipperUnderPrefix(k: nat)
    requires k < |ShipperRoutes|
    ensures |Prefixes[1]| <= |ShipperRoutes[k].path| && ShipperRoutes[k].path[..|Prefixes[1]|] == Prefixes[1]
  {
  }

  lemma TransporterUnderPrefix(k: nat)
    requires k < |TransporterRoutes|
    ensures |Prefixes[2]| <= |TransporterRoutes[k].path| && TransporterRoutes[k].path[..|Prefixes[2]|] == Prefixes[2]
  {
  }

  lemma ClearanceUnderPrefix(k: nat)
    requires k < |ClearanceRoutes|
    ensures |Prefixes[3]| <= |ClearanceRoutes[k].path| && ClearanceRoutes[k].path[..|Prefixes[3]|] == Prefixes[3]
  {
  }

  /** A company lists each role once. */
  lemma RolesDistinctWithin(i: nat, j: nat, k: nat)
    requires i < |Routes| && j < k < |Routes[i].1|
    ensures Routes[i].1[j].role != Routes[i].1[k].role
  {
  }

  /** Dashboards of one company have distinct paths. */
  lemma PathsDistinctWithin(i: nat, j: nat, k: nat)
    requires i < |Routes| && j < k < |Routes[i].1|
    ensures Routes[i].1[j].path != Routes[i].1[k].path
  {
  }

  /** The prefixes part at their second character, so dashboards of different companies have distinct paths. */
  lemma PathsDistinctAcross(i: nat, i': nat, e: Entry, e': Entry)
    requires i < i' < |Routes| && e in Routes[i].1 && e' in Routes[i'].1
    ensures e.path != e'.path
  {
    PathsUnderPrefix(i, e);
    PathsUnderPrefix(i', e');
    assert e.path[1] == Prefixes[i][1] && e'.path[1] == Prefixes[i'][1];
  }

  /** The Logistics, Office Boy and Stone Marker dashboards have paths but no mounted route. */
  lemma UnmountedDashboards()
    ensures !Mounted(ShipperRoutes[3].path) && !Mounted(ShipperRoutes[5].path) && !Mounted(ShipperRoutes[6].path)
    ensures !Mounted(ClearanceRoutes[3].path) && !Mounted(ClearanceRoutes[5].path)
  {
  }

  /** The list Signup shows when the backend cannot be reached. */
  const DefaultCompanies: seq<Company> := [
    Company("Factory", ["Company Owner", "Admin"]),
    Company("Shipper", ["Company Owner", "Admin", "Documentation Department", "Accounts Department"]),
    Company("Transporter", ["Company Owner", "Admin", "Truck Driver"]),
    Company("Clearance Agent", ["Company Owner", "Admin", "Documentation Department", "Accounts Department"])
  ]

  /** The fallback list agrees with the backend's list. */
  lemma DefaultCompaniesInSync()
    ensures DefaultCompanies == CompaniesRoles
  {
  }
}
