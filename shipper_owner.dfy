/**
 * The shipper owner's dashboard
 * (frontend/src/pages/dashboards/shipper/CompanyOwnerDashboard.jsx): nine
 * feature cards, searched on title and summary and listed six to a page.
 */
module ShipperOwner {
  import opened JsStrings
  import opened ListView
  import opened FeatureCards

  const PerPage: nat := 6

  /** `Object.values(FEATURES)`, in the order the object literal lists them. */
  const Features: seq<Feature> := [
    Feature("strategy", "Business Strategy", "Set growth targets, new markets and lane strategy"),
    Feature("commercial", "Key Accounts", "Manage top customers, contracts and SLAs"),
    Feature("finance", "Finance & P&L", "Margins, credit policy, cash planning"),
    Feature("operations", "Operations Oversight", "Monitor deliveries, capacity and KPIs"),
    Feature("fleet", "Fleet Strategy", "Procurement, leasing and utilization"),
    Feature("compliance", "Compliance & Risk", "Regulatory, customs and insurance"),
    Feature("people", "People & HR", "Senior hires, incentives and retention"),
    Feature("tech", "Technology", "TMS, telematics and dashboards"),
    Feature("reports", "Reports & Governance", "Board reports, audits and KPI exports")]

  /** `filtered`: the cards whose title or summary contains the query, all of them for a blank one. */
  function Filtered(query: string): (r: seq<Feature>)
    ensures Query(query) == "" ==> r == Features
    ensures forall f :: f in r <==>
      f in Features && (Query(query) == "" || Includes(ToLower(f.title), Query(query)) || Includes(ToLower(f.short), Query(query)))
  {
    FeaturesFiltered(Features, query)
  }

  /** `totalPages`: enough pages of six for the filtered cards, and at least one. */
  function PageCount(query: string): (t: nat)
    ensures t >= 1 && |Filtered(query)| <= t * PerPage
    ensures t == 1 || (t - 1) * PerPage < |Filtered(query)|
  {
    TotalPages(|Filtered(query)|, PerPage)
  }

  /** `paged`: the cards of the current page, at most six, none past the last page. */
  function Paged(query: string, page: int): (r: seq<Feature>)
    ensures page >= 1 ==> |r| <= PerPage
    ensures page > PageCount(query) ==> r == []
    ensures 1 <= page <= PageCount(query) && Filtered(query) != [] ==> r != []
  {
    var items := Filtered(query);
    assert PageCount(query) == TotalPages(|items|, PerPage);
    Page(items, page, PerPage)
  }

  /** The Next button, clamped to the page count of the current search. */
  method NextPage(s: ListState)
    modifies s
    ensures s.page == (if PageCount(s.query) < old(s.page) + 1 then PageCount(s.query) else old(s.page) + 1)
    ensures s.query == old(s.query) && s.active == old(s.active)
    ensures old(s.page) >= 1 ==> 1 <= s.page <= PageCount(s.query)
  {
    s.Next(PageCount(s.query));
  }

  /** The card ids are distinct. */
  lemma FeatureIdsDistinct()
    ensures DistinctIds(Features)
  {
  }

  /** With a blank query the nine cards fill two pages, six and three. */
  lemma BlankQueryTwoPages()
    ensures PageCount("") == 2
    ensures |Paged("", 1)| == 6 && |Paged("", 2)| == 3
  {
    BlankQueryListsAll(Features);
    NineCardsTwoPages(Features);
  }
}
