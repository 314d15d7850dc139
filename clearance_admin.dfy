/**
 * The clearance agent admin's dashboard
 * (frontend/src/pages/dashboards/clearanceAgents/AdminDashboard.jsx): the
 * sample clearances, the search over them, their pages of eight and the
 * hand-written CSV export of a list of clearances.
 *
 * The duty of each sample is random in the page; here the parameter
 * `duties` gives the draw of the i-th sample.
 */
module ClearanceAdmin {
  import opened JsStrings
  import opened ListView

  datatype Clearance = Clearance(id: string, refNo: string, client: string, status: string, duty: nat, eta: string)

  const PerPage: nat := 8

  const Clients := ["A1 Traders", "Oceanex", "TransGlobal"]
  const Statuses := ["Pending", "Filed", "Cleared", "Hold"]

  /** The i-th sample clearance; `draw` picks its duty, 3000 to 22900 in steps of 100. */
  function SampleClearance(i: nat, draw: nat): (c: Clearance)
    ensures c.client == Clients[i % 3] && c.status == Statuses[i % 4]
    ensures 3000 <= c.duty <= 22900 && c.duty % 100 == 0
  {
    Clearance("CL-" + NatToString(4000 + i), "REF-" + NatToString(700 + i), Clients[i % 3], Statuses[i % 4],
              (draw % 200 + 30) * 100, "2025-11-" + NatToString(i % 28 + 1))
  }

  /** `SAMPLE_CLEARANCES`: twenty clearances. */
  function SampleClearances(duties: nat -> nat): (cs: seq<Clearance>)
    ensures |cs| == 20 && forall i | 0 <= i < 20 :: cs[i] == SampleClearance(i, duties(i))
  {
    seq(20, i requires 0 <= i < 20 => SampleClearance(i, duties(i)))
  }

  /** The text fields the search lower-cases before matching. */
  function TextFields(c: Clearance): seq<string> {
    [c.id, c.refNo, c.client, c.status]
  }

  function SearchFields(c: Clearance): seq<string> {
    TextFields(c) + [NatToString(c.duty)]
  }

  /**
   * `filteredRecords`: the clearances whose id, reference, client or status,
   * lower-cased, or whose duty written in decimal contains the query.
   */
  function FilteredRecords(query: string, duties: nat -> nat): (r: seq<Clearance>)
    ensures Query(query) == "" ==> r == SampleClearances(duties)
    ensures forall c :: c in r <==> (c in SampleClearances(duties) &&
      (Query(query) == "" || FieldsMatch(TextFields(c), Query(query)) || Includes(NatToString(c.duty), Query(query))))
  {
    forall c ensures FieldsMatch(SearchFields(c), Query(query)) <==>
      FieldsMatch(TextFields(c), Query(query)) || Includes(NatToString(c.duty), Query(query)) {
      LowerOfNumber(c.duty);
      FieldsMatchSnoc(TextFields(c), NatToString(c.duty), Query(query));
    }
    Search(SampleClearances(duties), query, SearchFields)
  }

  /** `totalPages`: enough pages of eight for the filtered clearances, and at least one. */
  function PageCount(query: string, duties: nat -> nat): (t: nat)
    ensures t >= 1 && |FilteredRecords(query, duties)| <= t * PerPage
    ensures t == 1 || (t - 1) * PerPage < |FilteredRecords(query, duties)|
  {
    TotalPages(|FilteredRecords(query, duties)|, PerPage)
  }

  /** `paged`: the clearances of the current page, at most eight, none past the last page. */
  function Paged(query: string, page: int, duties: nat -> nat): (r: seq<Clearance>)
    ensures page >= 1 ==> |r| <= PerPage
    ensures page > PageCount(query, duties) ==> r == []
    ensures 1 <= page <= PageCount(query, duties) && FilteredRecords(query, duties) != [] ==> r != []
  {
    var items := FilteredRecords(query, duties);
    assert PageCount(query, duties) == TotalPages(|items|, PerPage);
    Page(items, page, PerPage)
  }

  /** The Next button, clamped to the page count of the current search. */
  method NextPage(s: ListState, duties: nat -> nat)
    modifies s
    ensures s.query == old(s.query) && s.active == old(s.active)
    ensures s.page == (if PageCount(s.query, duties) < old(s.page) + 1 then PageCount(s.query, duties) else old(s.page) + 1)
    ensures old(s.page) >= 1 ==> 1 <= s.page <= PageCount(s.query, duties)
  {
    s.Next(PageCount(s.query, duties));
  }

  const Header := "id,refNo,client,status,duty,eta"
  const HeaderNames := ["id", "refNo", "client", "status", "duty", "eta"]

  /** The fixed header names the record fields in the order each line writes them. */
  lemma HeaderNamesTheFields()
    ensures Join(HeaderNames, ",") == Header
    ensures Split(Header, ',') == HeaderNames
  {
    HeaderJoin();
    HeaderNamesClean();
    SplitJoin(HeaderNames, ',');
  }

  lemma HeaderJoin()
    ensures Join(HeaderNames, ",") == Header
  {
  }

  lemma HeaderNamesClean()
    ensures AllClean(HeaderNames)
  {
    assert Clean(HeaderNames[0]) && Clean(HeaderNames[1]) && Clean(HeaderNames[2]);
    assert Clean(HeaderNames[3]) && Clean(HeaderNames[4]) && Clean(HeaderNames[5]);
  }

  /** The fields of one line of the export, in header order. */
  function Record(c: Clearance): (fs: seq<string>)
    ensures |fs| == |HeaderNames|
  {
    [c.id, c.refNo, c.client, c.status, NatToString(c.duty), c.eta]
  }

  function Records(cs: seq<Clearance>): (rs: seq<seq<string>>)
    ensures |rs| == |cs| && forall i | 0 <= i < |cs| :: rs[i] == Record(cs[i])
  {
    seq(|cs|, i requires 0 <= i < |cs| => Record(cs[i]))
  }

  /** `exportCSV(rows)`: the fixed header, then one line per clearance. */
  function ExportCsv(rows: seq<Clearance>): string {
    FixedCsv(Header, Records(rows))
  }

  /**
   * The export of the current search reads back as the header and then, line
   * by line, the fields of each listed clearance.
   */
  lemma ExportReadsBack(query: string, duties: nat -> nat)
    ensures |Split(ExportCsv(FilteredRecords(query, duties)), '\n')| == |FilteredRecords(query, duties)| + 1
    ensures Split(ExportCsv(FilteredRecords(query, duties)), '\n')[0] == Header
    ensures forall i | 0 <= i < |FilteredRecords(query, duties)| ::
      Split(Split(ExportCsv(FilteredRecords(query, duties)), '\n')[i + 1], ',') == Record(FilteredRecords(query, duties)[i])
  {
    SamplesExportReadsBack(FilteredRecords(query, duties), duties);
  }

  /** The modal's Export, given the one-element list of the selected clearance: the header and exactly that clearance. */
  lemma SingleExport(selected: seq<Clearance>, duties: nat -> nat)
    requires |selected| == 1 && selected[0] in SampleClearances(duties)
    ensures |Split(ExportCsv(selected), '\n')| == 2
    ensures Split(Split(ExportCsv(selected), '\n')[1], ',') == Record(selected[0])
  {
    SamplesExportReadsBack(selected, duties);
  }

  lemma SamplesExportReadsBack(cs: seq<Clearance>, duties: nat -> nat)
    requires forall c | c in cs :: c in SampleClearances(duties)
    ensures |Split(ExportCsv(cs), '\n')| == |cs| + 1
    ensures Split(ExportCsv(cs), '\n')[0] == Header
    ensures forall i | 0 <= i < |cs| :: Split(Split(ExportCsv(cs), '\n')[i + 1], ',') == Record(cs[i])
  {
    forall i | 0 <= i < |cs| ensures AllClean(Records(cs)[i]) {
      assert cs[i] in SampleClearances(duties);
      var k :| 0 <= k < 20 && SampleClearances(duties)[k] == cs[i];
      SampleClean(k, duties(k));
    }
    FixedCsvReadBack(Header, Records(cs));
  }

  lemma SampleClean(i: nat, draw: nat)
    ensures AllClean(Record(SampleClearance(i, draw)))
  {
    var c := SampleClearance(i, draw);
    assert Clean(c.id) by { CleanNumbered("CL-", 4000 + i, ""); }
    assert Clean(c.refNo) by { CleanNumbered("REF-", 700 + i, ""); }
    assert Clean(c.client) by { ClientsClean(); }
    assert Clean(c.status) by { StatusesClean(); }
    assert Clean(NatToString(c.duty)) by { NumberClean(c.duty); }
    assert Clean(c.eta) by { CleanNumbered("2025-11-", i % 28 + 1, ""); }
  }

  lemma ClientsClean()
    ensures AllClean(Clients)
  {
    assert Clean(Clients[0]) && Clean(Clients[1]) && Clean(Clients[2]);
  }

  lemma StatusesClean()
    ensures AllClean(Statuses)
  {
    assert Clean(Statuses[0]) && Clean(Statuses[1]) && Clean(Statuses[2]) && Clean(Statuses[3]);
  }
}
