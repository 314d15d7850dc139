/**
 * The role switcher of the transporter owner's dashboard
 * (frontend/src/pages/dashboards/transporter/CompanyOwnerDashboard.jsx): the
 * roles, the feature catalogue, the features each role sees and the actions
 * a role may take on a feature.
 */
module TransporterOwner {
  import opened Wrappers
  import opened FeatureCards

  const Roles: seq<string> := ["owner", "driver", "logistics", "admin"]

  const Features: map<string, Feature> := map[
    "transport" := Feature("transport", "Transport Orders", "Create and assign transport orders, view status."),
    "fleet" := Feature("fleet", "Fleet Management", "View fleet, maintenance schedule."),
    "invoices" := Feature("invoices", "Invoicing & Billing", "Create & send invoices."),
    "compliance" := Feature("compliance", "Compliance & Licenses", "Manage permits and insurance."),
    "reports" := Feature("reports", "Reports & KPIs", "View utilization and KPIs."),
    "drivers" := Feature("drivers", "Driver Management", "Hire, train and assign drivers."),
    "docs" := Feature("docs", "Export Documents", "LR, E-way, gate pass and customs docs."),
    "settings" := Feature("settings", "System Settings", "App config and permissions.")]

  const RoleFeatures: map<string, seq<string>> := map[
    "owner" := ["transport", "fleet", "invoices", "compliance", "reports", "drivers", "settings"],
    "logistics" := ["transport", "docs", "drivers", "reports"],
    "driver" := ["docs", "transport"],
    "admin" := ["settings", "reports", "invoices", "drivers"]]

  /** The actions of each feature before the role adjusts them. */
  const BaseActions: map<string, seq<string>> := map[
    "transport" := ["Create Order", "Track Order", "Assign Driver"],
    "fleet" := ["View Fleet", "Schedule Maintenance", "Add/Remove Vehicle"],
    "invoices" := ["Create Invoice", "View Payments", "Send Reminder"],
    "compliance" := ["View Permits", "Upload Documents", "Renew Insurance"],
    "reports" := ["Download KPI", "Filter by Date", "Export CSV"],
    "drivers" := ["Add Driver", "View Performance", "Assign Incentive"],
    "docs" := ["Generate LR", "Upload Gate-Pass", "View Customs Status"],
    "settings" := ["Manage Users", "Update Permissions", "System Logs"]]

  /** `ROLE_FEATURES[role] || []`. */
  function FeatureIds(role: string): (ids: seq<string>)
    ensures role !in RoleFeatures ==> ids == []
    ensures role in RoleFeatures ==> ids == RoleFeatures[role]
  {
    if role in RoleFeatures then RoleFeatures[role] else []
  }

  /** `availableFeatureIds.map(id => FEATURES[id])`; an id without a feature would give `undefined` (`None`). */
  function AvailableFeatures(role: string): (fs: seq<Option<Feature>>)
    ensures |fs| == |FeatureIds(role)|
    ensures forall k | 0 <= k < |fs| ::
      (fs[k].Some? <==> FeatureIds(role)[k] in Features)
      && (fs[k].Some? ==> fs[k].value == Features[FeatureIds(role)[k]])
  {
    var ids := FeatureIds(role);
    seq(|ids|, k requires 0 <= k < |ids| => if ids[k] in Features then Some(Features[ids[k]]) else None)
  }

  /** Every role of the switcher lists features, and each listed id has a card, so no entry is `undefined`. */
  lemma EveryRoleHasFeatures(role: string)
    requires role in Roles
    ensures role in RoleFeatures
    ensures forall k | 0 <= k < |AvailableFeatures(role)| ::
      AvailableFeatures(role)[k].Some? && AvailableFeatures(role)[k].value.id == FeatureIds(role)[k]
  {
  }

  /** A role outside the table sees no features. */
  lemma UnknownRoleNoFeatures(role: string)
    requires role !in Roles
    ensures AvailableFeatures(role) == []
  {
  }

  /** The export documents feature is offered to logistics and drivers only. */
  lemma DocsOnlyForLogisticsAndDriver(role: string)
    requires role in Roles
    ensures "docs" in FeatureIds(role) <==> role == "logistics" || role == "driver"
  {
    assert RoleFeatures["logistics"][1] == "docs" && RoleFeatures["driver"][0] == "docs";
  }

  /** `base[featureId] || ['View']`. */
  function Actions(featureId: string): (acts: seq<string>)
    ensures featureId in BaseActions ==> acts == BaseActions[featureId]
    ensures featureId !in BaseActions ==> acts == ["View"]
    ensures acts != []
  {
    if featureId in BaseActions then BaseActions[featureId] else ["View"]
  }

  /**
   * `getActionsForFeature`: a driver gets the first two actions (all of
   * them when fewer), an owner gets every action and then
   * `View Financial Impact`, any other role the actions unchanged.
   */
  function ActionsForFeature(featureId: string, role: string): (acts: seq<string>)
    ensures role == "driver" ==> |acts| == (if |Actions(featureId)| < 2 then |Actions(featureId)| else 2)
                                 && acts == Actions(featureId)[..|acts|]
    ensures role == "owner" ==> |acts| == |Actions(featureId)| + 1 && acts[..|acts| - 1] == Actions(featureId) && acts[|acts| - 1] == "View Financial Impact"
    ensures role != "driver" && role != "owner" ==> acts == Actions(featureId)
  {
    var actions := Actions(featureId);
    if role == "driver" then actions[..if 2 < |actions| then 2 else |actions|]
    else if role == "owner" then actions + ["View Financial Impact"]
    else actions
  }

  /** Every feature of the catalogue has its own actions, so the `['View']` fallback is never shown. */
  lemma EveryFeatureHasActions(featureId: string)
    requires featureId in Features
    ensures featureId in BaseActions && |Actions(featureId)| == 3
  {
  }

  /** Every action a driver is offered is offered to the owner too. */
  lemma DriverActionsAreOwnerActions(featureId: string)
    ensures forall a | a in ActionsForFeature(featureId, "driver") :: a in ActionsForFeature(featureId, "owner")
  {
    var d, o := ActionsForFeature(featureId, "driver"), ActionsForFeature(featureId, "owner");
    forall a | a in d ensures a in o {
      var k :| 0 <= k < |d| && d[k] == a;
      assert o[k] == Actions(featureId)[k];
    }
  }
}
