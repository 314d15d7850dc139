/**
 * The factory admin's dashboard
 * (frontend/src/pages/dashboards/factory/AdminDashboard.jsx): the feature
 * cards and the sample machines, the search over both, the page of eight of
 * the list the active tab shows and the export of the machine list.
 */
module FactoryAdmin {
  import opened JsStrings
  import opened ListView
  import opened FeatureCards

  const PerPage: nat := 8

  /** `Object.values(FEATURES)`, in the order the object literal lists them. */
  const Features: seq<Feature> := [
    Feature("production", "Production Orders", "Manage production runs and schedules"),
    Feature("inventory", "Inventory", "Raw materials, WIP and finished goods"),
    Feature("maintenance", "Maintenance", "Machine maintenance and service logs"),
    Feature("quality", "Quality Control", "Inspections, QC checks and NCRs"),
    Feature("workers", "Workers", "Staff roster, attendance and certifications"),
    Feature("reports", "Reports", "Production, quality and downtime reports"),
    Feature("settings", "Settings", "Site settings, shifts and integrations")]

  datatype Machine = Machine(id: string, name: string, status: string, lastService: string)

  const MachineNames := ["Press A", "Cutter B", "Welder C", "Painter D"]

  /** The status rule of the samples: every sixth machine is down, of the rest every fourth is in maintenance. */
  function MachineStatus(i: nat): (s: string)
    ensures s == "Down" <==> i % 6 == 0
    ensures s == "Maintenance" <==> i % 6 != 0 && i % 4 == 0
    ensures s == "Running" <==> i % 6 != 0 && i % 4 != 0
  {
    if i % 6 == 0 then "Down" else if i % 4 == 0 then "Maintenance" else "Running"
  }

  function SampleMachine(i: nat): (m: Machine)
    ensures m.name == MachineNames[i % 4] && m.status == MachineStatus(i)
  {
    Machine("MC-" + NatToString(800 + i), MachineNames[i % 4], MachineStatus(i), "2025-11-" + NatToString(i % 25 + 1))
  }

  /** `SAMPLE_MACHINES`: fourteen machines. */
  function SampleMachines(): (ms: seq<Machine>)
    ensures |ms| == 14 && forall i | 0 <= i < 14 :: ms[i] == SampleMachine(i)
  {
    seq(14, i requires 0 <= i < 14 => SampleMachine(i))
  }

  /** Of the fourteen samples, machines 0 and 6 and 12 are down, 4 and 8 in maintenance. */
  lemma SampleStatusCounts(i: nat)
    requires i < 14
    ensures SampleMachines()[i].status == "Down" <==> i == 0 || i == 6 || i == 12
    ensures SampleMachines()[i].status == "Maintenance" <==> i == 4 || i == 8
  {
    assert SampleMachines()[i].status == MachineStatus(i);
    StatusOfFirstFourteen(i);
  }

  lemma StatusOfFirstFourteen(i: nat)
    requires i < 14
    ensures i % 6 == 0 <==> i == 0 || i == 6 || i == 12
    ensures i % 6 != 0 && i % 4 == 0 <==> i == 4 || i == 8
  {
    if i < 6 {
      assert i % 6 == i;
    } else if i < 12 {
      assert i % 6 == i - 6;
    } else {
      assert i % 6 == i - 12;
    }
  }

  /** `filteredFeatures`: the cards whose title or summary contains the query. */
  function FilteredFeatures(query: string): (r: seq<Feature>)
    ensures Query(query) == "" ==> r == Features
    ensures forall f :: f in r <==>
      f in Features && (Query(query) == "" || Includes(ToLower(f.title), Query(query)) || Includes(ToLower(f.short), Query(query)))
  {
    FeaturesFiltered(Features, query)
  }

  function MachineFields(m: Machine): seq<string> {
    [m.id, m.name, m.status]
  }

  /** `machinesFiltered`: the machines whose id, name or status contains the query. */
  function MachinesFiltered(query: string): (r: seq<Machine>)
    ensures Query(query) == "" ==> r == SampleMachines()
    ensures forall m :: m in r <==> m in SampleMachines() && (Query(query) == "" || FieldsMatch(MachineFields(m), Query(query)))
  {
    Search(SampleMachines(), query, MachineFields)
  }

  /** The list a tab shows: machines on the `maintenance` tab, feature cards on every other. */
  datatype Listing = Cards(cards: seq<Feature>) | Machines(machines: seq<Machine>)

  function Length(l: Listing): nat {
    match l
    case Cards(fs) => |fs|
    case Machines(ms) => |ms|
  }

  function Shown(active: string, query: string): (l: Listing)
    ensures l.Machines? <==> active == "maintenance"
    ensures l.Machines? ==> l.machines == MachinesFiltered(query)
    ensures l.Cards? ==> l.cards == FilteredFeatures(query)
  {
    if active == "maintenance" then Machines(MachinesFiltered(query)) else Cards(FilteredFeatures(query))
  }

  /** `totalPages`: enough pages of eight for the list the tab shows, and at least one. */
  function PageCount(active: string, query: string): (t: nat)
    ensures t >= 1 && Length(Shown(active, query)) <= t * PerPage
    ensures t == 1 || (t - 1) * PerPage < Length(Shown(active, query))
  {
    TotalPages(Length(Shown(active, query)), PerPage)
  }

  /** `pagedItems`: the current page of the list the tab shows, at most eight entries. */
  function PagedItems(active: string, query: string, page: int): (l: Listing)
    ensures l.Machines? <==> active == "maintenance"
    ensures page >= 1 ==> Length(l) <= PerPage
    ensures page > PageCount(active, query) ==> Length(l) == 0
  {
    match Shown(active, query)
    case Cards(fs) => Cards(Page(fs, page, PerPage))
    case Machines(ms) => Machines(Page(ms, page, PerPage))
  }

  /** With a blank query all fourteen machines fill two pages, eight and six. */
  lemma BlankMaintenancePages()
    ensures PageCount("maintenance", "") == 2
    ensures Length(PagedItems("maintenance", "", 2)) == 6
  {
    assert AllSpace("");
    var ms := MachinesFiltered("");
    assert |ms| == 14;
    FourteenTwoPages(ms);
  }

  lemma FourteenTwoPages(ms: seq<Machine>)
    requires |ms| == 14
    ensures TotalPages(|ms|, PerPage) == 2 && |Page(ms, 2, PerPage)| == 6
  {
    assert |JsSlice(ms, 8, 16)| == 6;
  }

  /** The Next button, clamped to the page count of the current tab and search. */
  method NextPage(s: ListState)
    modifies s
    ensures s.query == old(s.query) && s.active == old(s.active)
    ensures s.page == (if PageCount(s.active, s.query) < old(s.page) + 1 then PageCount(s.active, s.query) else old(s.page) + 1)
    ensures old(s.page) >= 1 ==> 1 <= s.page <= PageCount(s.active, s.query)
  {
    s.Next(PageCount(s.active, s.query));
  }

  const MachineHeaders := ["id", "name", "status", "lastService"]

  function MachineRow(m: Machine): map<string, string> {
    map["id" := m.id, "name" := m.name, "status" := m.status, "lastService" := m.lastService]
  }

  function MachineRows(ms: seq<Machine>): (rows: seq<map<string, string>>)
    ensures |rows| == |ms|
  {
    seq(|ms|, i requires 0 <= i < |ms| => MachineRow(ms[i]))
  }

  /** What the Export button produces: the machine CSV on the `maintenance` tab, the feature specification on every other. */
  datatype Export = MachineCsv(csv: string) | Specification

  function ExportFor(active: string, query: string): (e: Export)
    ensures e.MachineCsv? <==> active == "maintenance"
    ensures e.MachineCsv? ==> e.csv == Csv(MachineHeaders, MachineRows(MachinesFiltered(query)))
  {
    if active == "maintenance" then MachineCsv(Csv(MachineHeaders, MachineRows(MachinesFiltered(query)))) else Specification
  }

  /**
   * The machine export has the header line and then one line per machine of
   * the current search, in order, holding its id, name, status and last
   * service date.
   */
  lemma MachineExportLines(query: string)
    ensures |Split(ExportFor("maintenance", query).csv, '\n')| == 1 + |MachinesFiltered(query)|
    ensures Split(Split(ExportFor("maintenance", query).csv, '\n')[0], ',') == ["id", "name", "status", "lastService"]
    ensures forall i | 0 <= i < |MachinesFiltered(query)| ::
      Split(Split(ExportFor("maintenance", query).csv, '\n')[i + 1], ',') == MachineCells(MachinesFiltered(query)[i])
  {
    var ms := MachinesFiltered(query);
    MachinesUnquoted(ms);
    CsvReadBack(MachineHeaders, MachineRows(ms));
    forall i | 0 <= i < |ms| ensures Cells(MachineHeaders, MachineRows(ms)[i]) == MachineCells(ms[i]) {
      MachineRowCells(ms[i]);
    }
  }

  /** A machine's fields in the export's column order. */
  function MachineCells(m: Machine): seq<string> {
    [m.id, m.name, m.status, m.lastService]
  }

  lemma MachineRowCells(m: Machine)
    ensures Cells(MachineHeaders, MachineRow(m)) == MachineCells(m)
  {
  }

  lemma MachinesUnquoted(ms: seq<Machine>)
    requires forall m | m in ms :: m in SampleMachines()
    ensures Unquoted(MachineHeaders, MachineRows(ms))
  {
    assert AllClean(MachineHeaders) by {
      assert Clean(MachineHeaders[0]) && Clean(MachineHeaders[1]) && Clean(MachineHeaders[2]) && Clean(MachineHeaders[3]);
    }
    forall i | 0 <= i < |ms| ensures CleanRow(MachineRows(ms)[i]) {
      assert ms[i] in SampleMachines();
      var k :| 0 <= k < 14 && SampleMachines()[k] == ms[i];
      MachineClean(k);
    }
  }

  lemma MachineClean(i: nat)
    ensures CleanRow(MachineRow(SampleMachine(i)))
  {
    var m := SampleMachine(i);
    CleanNumbered("MC-", 800 + i, "");
    CleanNumbered("2025-11-", i % 25 + 1, "");
    MachineNameClean(i % 4);
    MachineStatusClean(i);
    MachineRowClean(m);
  }

  lemma MachineNameClean(k: nat)
    requires k < 4
    ensures Clean(MachineNames[k])
  {
  }

  lemma MachineStatusClean(i: nat)
    ensures Clean(MachineStatus(i))
  {
  }

  lemma MachineRowClean(m: Machine)
    requires Clean(m.id) && Clean(m.name) && Clean(m.status) && Clean(m.lastService)
    ensures CleanRow(MachineRow(m))
  {
  }
}
