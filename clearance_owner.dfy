/**
 * The clearance agent owner's dashboard
 * (frontend/src/pages/dashboards/clearanceAgents/CompanyOwnerDashboard.jsx):
 * the feature cards and the sample customer accounts, the search over both,
 * the tab-dependent page count, the paged account table of the finance tab
 * and the account export.
 *
 * The outstanding amount of each sample is random in the page; here the
 * parameter `owed` gives the draw of the i-th sample.
 */
module ClearanceOwner {
  import opened JsStrings
  import opened ListView
  import opened FeatureCards

  const PerPage: nat := 6

  /** `Object.values(FEATURES)`, in the order the object literal lists them. */
  const Features: seq<Feature> := [
    Feature("commercial", "Commercial / Sales", "Contracts, SLAs and key accounts"),
    Feature("operations", "Operations Oversight", "Filing SLAs, slot bookings, cut-offs"),
    Feature("finance", "Finance & Billing", "P&L, receivables and duty reconciliation"),
    Feature("compliance", "Compliance", "Customs, GST, bonds and audit readiness"),
    Feature("vendors", "Vendors & Partners", "Manage C&F, port partners and SLAs"),
    Feature("reports", "Reports & KPIs", "Management reports, aging and dashboards"),
    Feature("risk", "Risk & Guarantees", "Bank guarantees, insurance and claims"),
    Feature("tech", "Technology", "APIs, TMS integrations and telemetry")]

  datatype Account = Account(id: string, name: string, outstanding: nat, lastActive: string, status: string)

  const AccountNames := ["Alpha Importers", "Oceanex", "TransGlobal"]

  /** The i-th sample account: every fifth, from the first, is on hold; `draw` picks the amount owed. */
  function SampleAccount(i: nat, draw: nat): (a: Account)
    ensures a.name == AccountNames[i % 3]
    ensures a.status == "On Hold" <==> i % 5 == 0
    ensures a.status == "Active" <==> i % 5 != 0
    ensures 10000 <= a.outstanding <= 59000 && a.outstanding % 1000 == 0
  {
    Account("CUST-" + NatToString(500 + i), AccountNames[i % 3], (draw % 50 + 10) * 1000,
            "2025-11-" + NatToString(i % 28 + 1), if i % 5 == 0 then "On Hold" else "Active")
  }

  /** `SAMPLE_ACCOUNTS`: twelve accounts. */
  function SampleAccounts(owed: nat -> nat): (as_: seq<Account>)
    ensures |as_| == 12 && forall i | 0 <= i < 12 :: as_[i] == SampleAccount(i, owed(i))
  {
    seq(12, i requires 0 <= i < 12 => SampleAccount(i, owed(i)))
  }

  /** `filteredFeatures`: the cards whose title or summary contains the query. */
  function FilteredFeatures(query: string): (r: seq<Feature>)
    ensures Query(query) == "" ==> r == Features
    ensures forall f :: f in r <==>
      f in Features && (Query(query) == "" || Includes(ToLower(f.title), Query(query)) || Includes(ToLower(f.short), Query(query)))
  {
    FeaturesFiltered(Features, query)
  }

  function AccountFields(a: Account): seq<string> {
    [a.id, a.name]
  }

  /** `accountsFiltered`: the accounts whose id or name contains the query. */
  function AccountsFiltered(query: string, owed: nat -> nat): (r: seq<Account>)
    ensures Query(query) == "" ==> r == SampleAccounts(owed)
    ensures forall a :: a in r <==> a in SampleAccounts(owed) && (Query(query) == "" || FieldsMatch(AccountFields(a), Query(query)))
  {
    Search(SampleAccounts(owed), query, AccountFields)
  }

  /**
   * The list the header's `Showing` counter counts and the header's Export
   * chooses by: the accounts on the `commercial` tab, the feature cards on
   * every other.
   */
  datatype Listing = Cards(cards: seq<Feature>) | Accounts(accounts: seq<Account>)

  function Length(l: Listing): nat {
    match l
    case Cards(fs) => |fs|
    case Accounts(as_) => |as_|
  }

  function Shown(active: string, query: string, owed: nat -> nat): (l: Listing)
    ensures l.Accounts? <==> active == "commercial"
    ensures l.Accounts? ==> l.accounts == AccountsFiltered(query, owed)
    ensures l.Cards? ==> l.cards == FilteredFeatures(query)
  {
    if active == "commercial" then Accounts(AccountsFiltered(query, owed)) else Cards(FilteredFeatures(query))
  }

  /**
   * `totalPages`: pages of six of that list, at least one. The page computes
   * it but never renders it; the finance table has its own count.
   */
  function PageCount(active: string, query: string, owed: nat -> nat): (t: nat)
    ensures t >= 1 && Length(Shown(active, query, owed)) <= t * PerPage
    ensures t == 1 || (t - 1) * PerPage < Length(Shown(active, query, owed))
  {
    TotalPages(Length(Shown(active, query, owed)), PerPage)
  }

  /** `paged`: the current page of that list, at most six entries; computed, never rendered. */
  function Paged(active: string, query: string, page: int, owed: nat -> nat): (l: Listing)
    ensures l.Accounts? <==> active == "commercial"
    ensures page >= 1 ==> Length(l) <= PerPage
    ensures page > PageCount(active, query, owed) ==> Length(l) == 0
  {
    match Shown(active, query, owed)
    case Cards(fs) => Cards(Page(fs, page, PerPage))
    case Accounts(as_) => Accounts(Page(as_, page, PerPage))
  }

  /** The page count the finance tab's account table shows: pages of six of the filtered accounts. */
  function FinancePageCount(query: string, owed: nat -> nat): (t: nat)
    ensures t >= 1 && |AccountsFiltered(query, owed)| <= t * PerPage
    ensures t == 1 || (t - 1) * PerPage < |AccountsFiltered(query, owed)|
  {
    TotalPages(|AccountsFiltered(query, owed)|, PerPage)
  }

  /** The rows of the finance tab's account table on the current page. */
  function FinanceRows(query: string, page: int, owed: nat -> nat): (r: seq<Account>)
    ensures page >= 1 ==> |r| <= PerPage
    ensures page > FinancePageCount(query, owed) ==> r == []
    ensures 1 <= page <= FinancePageCount(query, owed) && AccountsFiltered(query, owed) != [] ==> r != []
  {
    var items := AccountsFiltered(query, owed);
    assert FinancePageCount(query, owed) == TotalPages(|items|, PerPage);
    Page(items, page, PerPage)
  }

  /** The finance table pages the same accounts as the `commercial` tab's list. */
  lemma FinanceTableIsCommercialList(query: string, page: int, owed: nat -> nat)
    ensures FinancePageCount(query, owed) == PageCount("commercial", query, owed)
    ensures Paged("commercial", query, page, owed) == Accounts(FinanceRows(query, page, owed))
  {
  }

  /** The finance table's Next button, clamped to the table's own page count. */
  method FinanceNext(s: ListState, owed: nat -> nat)
    modifies s
    ensures s.query == old(s.query) && s.active == old(s.active)
    ensures s.page == (if FinancePageCount(s.query, owed) < old(s.page) + 1 then FinancePageCount(s.query, owed) else old(s.page) + 1)
    ensures old(s.page) >= 1 ==> 1 <= s.page <= FinancePageCount(s.query, owed)
  {
    s.Next(FinancePageCount(s.query, owed));
  }

  /** What the owner can do to the shared view state: type a search, click a tab, use a quick action, or page the finance table. */
  datatype OwnerAction = TypeSearch(text: string) | ClickTab(id: string) | QuickAction(id: string) | FinancePrev | FinanceNextPage

  /**
   * One action on the owner page. The page only ever grows through the
   * finance table's Next, which is clamped to that table's page count, and
   * a search or a tab click goes back to page 1; so although a quick action
   * keeps the page, the finance table's page always lies within its range.
   */
  method Apply(s: ListState, a: OwnerAction, owed: nat -> nat)
    requires 1 <= s.page <= FinancePageCount(s.query, owed)
    modifies s
    ensures 1 <= s.page <= FinancePageCount(s.query, owed)
    ensures a.TypeSearch? ==> s.query == a.text && s.page == 1 && s.active == old(s.active)
    ensures a.ClickTab? ==> s.active == a.id && s.page == 1 && s.query == old(s.query)
    ensures a.QuickAction? ==> s.active == a.id && s.page == old(s.page) && s.query == old(s.query)
    ensures a.FinancePrev? || a.FinanceNextPage? ==> s.query == old(s.query) && s.active == old(s.active)
  {
    match a
    case TypeSearch(text) => s.EditQuery(text);
    case ClickTab(id) => s.SelectTab(id);
    case QuickAction(id) => s.QuickTab(id);
    case FinancePrev => s.Prev();
    case FinanceNextPage => FinanceNext(s, owed);
  }

  const AccountHeaders := ["id", "name", "outstanding", "lastActive", "status"]

  function AccountRow(a: Account): map<string, string> {
    map["id" := a.id, "name" := a.name, "outstanding" := NatToString(a.outstanding), "lastActive" := a.lastActive, "status" := a.status]
  }

  function AccountRows(as_: seq<Account>): (rows: seq<map<string, string>>)
    ensures |rows| == |as_|
  {
    seq(|as_|, i requires 0 <= i < |as_| => AccountRow(as_[i]))
  }

  /** What the header's Export button produces: the account CSV on the `commercial` tab, the specification on every other. */
  datatype Export = AccountCsv(csv: string) | Specification

  function ExportFor(active: string, query: string, owed: nat -> nat): (e: Export)
    ensures e.AccountCsv? <==> active == "commercial"
    ensures e.AccountCsv? ==> e.csv == Csv(AccountHeaders, AccountRows(AccountsFiltered(query, owed)))
  {
    if active == "commercial" then AccountCsv(Csv(AccountHeaders, AccountRows(AccountsFiltered(query, owed)))) else Specification
  }

  /**
   * The account export has the header line and then one line per account of
   * the current search, in order, holding its id, name, amount owed, last
   * activity and status.
   */
  lemma AccountExportLines(query: string, owed: nat -> nat)
    ensures |Split(ExportFor("commercial", query, owed).csv, '\n')| == 1 + |AccountsFiltered(query, owed)|
    ensures Split(Split(ExportFor("commercial", query, owed).csv, '\n')[0], ',') == ["id", "name", "outstanding", "lastActive", "status"]
    ensures forall i | 0 <= i < |AccountsFiltered(query, owed)| ::
      Split(Split(ExportFor("commercial", query, owed).csv, '\n')[i + 1], ',') == AccountCells(AccountsFiltered(query, owed)[i])
  {
    AccountsReadBack(AccountsFiltered(query, owed), owed);
  }

  /** A row's own Export button, given the one-element list of that account: the header and that account's line. */
  lemma SingleAccountExport(selected: seq<Account>, owed: nat -> nat)
    requires |selected| == 1 && selected[0] in SampleAccounts(owed)
    ensures |Split(Csv(AccountHeaders, AccountRows(selected)), '\n')| == 2
    ensures Split(Split(Csv(AccountHeaders, AccountRows(selected)), '\n')[0], ',') == ["id", "name", "outstanding", "lastActive", "status"]
    ensures Split(Split(Csv(AccountHeaders, AccountRows(selected)), '\n')[1], ',') == AccountCells(selected[0])
  {
    assert forall a | a in selected :: a == selected[0];
    AccountsReadBack(selected, owed);
    var lines := Split(Csv(AccountHeaders, AccountRows(selected)), '\n');
    assert Split(lines[0 + 1], ',') == AccountCells(selected[0]);
  }

  /** An account's fields in the export's column order, the amount owed as its decimal text. */
  function AccountCells(a: Account): seq<string> {
    [a.id, a.name, NatToString(a.outstanding), a.lastActive, a.status]
  }

  lemma AccountsReadBack(as_: seq<Account>, owed: nat -> nat)
    requires forall a | a in as_ :: a in SampleAccounts(owed)
    ensures |Split(Csv(AccountHeaders, AccountRows(as_)), '\n')| == 1 + |as_|
    ensures Split(Split(Csv(AccountHeaders, AccountRows(as_)), '\n')[0], ',') == ["id", "name", "outstanding", "lastActive", "status"]
    ensures forall i | 0 <= i < |as_| :: Split(Split(Csv(AccountHeaders, AccountRows(as_)), '\n')[i + 1], ',') == AccountCells(as_[i])
  {
    AccountsUnquoted(as_, owed);
    CsvReadBack(AccountHeaders, AccountRows(as_));
    forall i | 0 <= i < |as_| ensures Cells(AccountHeaders, AccountRows(as_)[i]) == AccountCells(as_[i]) {
      AccountRowCells(as_[i]);
    }
  }

  lemma AccountRowCells(a: Account)
    ensures Cells(AccountHeaders, AccountRow(a)) == AccountCells(a)
  {
  }

  lemma AccountsUnquoted(as_: seq<Account>, owed: nat -> nat)
    requires forall a | a in as_ :: a in SampleAccounts(owed)
    ensures Unquoted(AccountHeaders, AccountRows(as_))
  {
    assert AllClean(AccountHeaders) by {
      assert Clean(AccountHeaders[0]) && Clean(AccountHeaders[1]) && Clean(AccountHeaders[2]);
      assert Clean(AccountHeaders[3]) && Clean(AccountHeaders[4]);
    }
    forall i | 0 <= i < |as_| ensures CleanRow(AccountRows(as_)[i]) {
      assert as_[i] in SampleAccounts(owed);
      var k :| 0 <= k < 12 && SampleAccounts(owed)[k] == as_[i];
      AccountClean(k, owed(k));
    }
  }

  lemma AccountClean(i: nat, draw: nat)
    ensures CleanRow(AccountRow(SampleAccount(i, draw)))
  {
    var a := SampleAccount(i, draw);
    CleanNumbered("CUST-", 500 + i, "");
    AccountNameClean(i % 3);
    NumberClean(a.outstanding);
    CleanNumbered("2025-11-", i % 28 + 1, "");
    AccountStatusClean(i, draw);
    CleanAccountRow(a);
  }

  lemma AccountNameClean(k: nat)
    requires k < 3
    ensures Clean(AccountNames[k])
  {
    AccountNamesClean();
  }

  lemma AccountStatusClean(i: nat, draw: nat)
    ensures Clean(SampleAccount(i, draw).status)
  {
    assert Clean("On Hold") && Clean("Active");
  }

  lemma CleanAccountRow(a: Account)
    requires Clean(a.id) && Clean(a.name) && Clean(NatToString(a.outstanding)) && Clean(a.lastActive) && Clean(a.status)
    ensures CleanRow(AccountRow(a))
  {
  }

  lemma AccountNamesClean()
    ensures AllClean(AccountNames)
  {
    assert Clean(AccountNames[0]) && Clean(AccountNames[1]) && Clean(AccountNames[2]);
  }
}
