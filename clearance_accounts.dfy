/**
 * The clearance agent accounts dashboard
 * (frontend/src/pages/dashboards/clearanceAgents/AccountsDashboard.jsx): the
 * sample account records, the search over them, their pages of eight and the
 * hand-written CSV export.
 *
 * The amount of each sample is random in the page; here the parameter
 * `amounts` gives the draw of the i-th sample.
 */
module ClearanceAccounts {
  import opened JsStrings
  import opened ListView

  datatype Entry = Entry(id: string, client: string, kind: string, amount: nat, status: string, date: string)

  const PerPage: nat := 8

  const Clients := ["A1 Traders", "Oceanex", "TransGlobal"]

  /** The type of the i-th sample: invoice, duty, vendor and expense in turn. */
  function SampleKind(i: nat): (k: string)
    ensures i % 4 == 0 <==> k == "Invoice"
    ensures i % 4 == 1 <==> k == "Duty"
    ensures i % 4 == 2 <==> k == "Vendor"
    ensures i % 4 == 3 <==> k == "Expense"
  {
    if i % 4 == 0 then "Invoice" else if i % 4 == 1 then "Duty" else if i % 4 == 2 then "Vendor" else "Expense"
  }

  /** The status of the i-th sample: every fifth is overdue, of the rest every third part paid, the others pending. */
  function SampleStatus(i: nat): (s: string)
    ensures s == "Overdue" <==> i % 5 == 0
    ensures s == "Part Paid" <==> i % 5 != 0 && i % 3 == 0
    ensures s == "Pending" <==> i % 5 != 0 && i % 3 != 0
  {
    if i % 5 == 0 then "Overdue" else if i % 3 == 0 then "Part Paid" else "Pending"
  }

  /** The i-th sample record; `draw` picks its amount, 5000 to 24900 in steps of 100. */
  function SampleEntry(i: nat, draw: nat): (e: Entry)
    ensures e.client == Clients[i % 3] && e.kind == SampleKind(i) && e.status == SampleStatus(i)
    ensures 5000 <= e.amount <= 24900 && e.amount % 100 == 0
  {
    Entry("CAI-" + NatToString(3000 + i), Clients[i % 3], SampleKind(i), (draw % 200 + 50) * 100,
          SampleStatus(i), "2025-11-" + NatToString(i % 28 + 1))
  }

  /** `SAMPLE_RECORDS`: twenty records. */
  function SampleEntries(amounts: nat -> nat): (es: seq<Entry>)
    ensures |es| == 20 && forall i | 0 <= i < 20 :: es[i] == SampleEntry(i, amounts(i))
  {
    seq(20, i requires 0 <= i < 20 => SampleEntry(i, amounts(i)))
  }

  /** The text fields the search lower-cases before matching. */
  function TextFields(e: Entry): seq<string> {
    [e.id, e.client, e.kind, e.status]
  }

  function SearchFields(e: Entry): seq<string> {
    TextFields(e) + [NatToString(e.amount)]
  }

  /**
   * `recordsFiltered`: the records whose id, client, type or status,
   * lower-cased, or whose amount written in decimal contains the query.
   */
  function RecordsFiltered(query: string, amounts: nat -> nat): (r: seq<Entry>)
    ensures Query(query) == "" ==> r == SampleEntries(amounts)
    ensures forall e :: e in r <==> (e in SampleEntries(amounts) &&
      (Query(query) == "" || FieldsMatch(TextFields(e), Query(query)) || Includes(NatToString(e.amount), Query(query))))
  {
    forall e ensures FieldsMatch(SearchFields(e), Query(query)) <==>
      FieldsMatch(TextFields(e), Query(query)) || Includes(NatToString(e.amount), Query(query)) {
      LowerOfNumber(e.amount);
      FieldsMatchSnoc(TextFields(e), NatToString(e.amount), Query(query));
    }
    Search(SampleEntries(amounts), query, SearchFields)
  }

  /** `totalPages`: enough pages of eight for the filtered records, and at least one. */
  function PageCount(query: string, amounts: nat -> nat): (t: nat)
    ensures t >= 1 && |RecordsFiltered(query, amounts)| <= t * PerPage
    ensures t == 1 || (t - 1) * PerPage < |RecordsFiltered(query, amounts)|
  {
    TotalPages(|RecordsFiltered(query, amounts)|, PerPage)
  }

  /** `paged`: the records of the current page, at most eight, none past the last page. */
  function Paged(query: string, page: int, amounts: nat -> nat): (r: seq<Entry>)
    ensures page >= 1 ==> |r| <= PerPage
    ensures page > PageCount(query, amounts) ==> r == []
    ensures 1 <= page <= PageCount(query, amounts) && RecordsFiltered(query, amounts) != [] ==> r != []
  {
    var items := RecordsFiltered(query, amounts);
    assert PageCount(query, amounts) == TotalPages(|items|, PerPage);
    Page(items, page, PerPage)
  }

  /** The Next button, clamped to the page count of the current search. */
  method NextPage(s: ListState, amounts: nat -> nat)
    modifies s
    ensures s.query == old(s.query) && s.active == old(s.active)
    ensures s.page == (if PageCount(s.query, amounts) < old(s.page) + 1 then PageCount(s.query, amounts) else old(s.page) + 1)
    ensures old(s.page) >= 1 ==> 1 <= s.page <= PageCount(s.query, amounts)
  {
    s.Next(PageCount(s.query, amounts));
  }

  const Header := "id,client,type,amount,status,date"
  const HeaderNames := ["id", "client", "type", "amount", "status", "date"]

  /** The fixed header names the record fields in the order each line writes them. */
  lemma HeaderNamesTheFields()
    ensures Join(HeaderNames, ",") == Header
    ensures Split(Header, ',') == HeaderNames
  {
    HeaderJoin();
    HeaderNamesClean();
    SplitJoin(HeaderNames, ',');
  }

  lemma HeaderJoin()
    ensures Join(HeaderNames, ",") == Header
  {
  }

  lemma HeaderNamesClean()
    ensures AllClean(HeaderNames)
  {
    assert Clean(HeaderNames[0]) && Clean(HeaderNames[1]) && Clean(HeaderNames[2]);
    assert Clean(HeaderNames[3]) && Clean(HeaderNames[4]) && Clean(HeaderNames[5]);
  }

  /** The fields of one line of the export, in header order. */
  function Record(e: Entry): (fs: seq<string>)
    ensures |fs| == |HeaderNames|
  {
    [e.id, e.client, e.kind, NatToString(e.amount), e.status, e.date]
  }

  function Records(es: seq<Entry>): (rs: seq<seq<string>>)
    ensures |rs| == |es| && forall i | 0 <= i < |es| :: rs[i] == Record(es[i])
  {
    seq(|es|, i requires 0 <= i < |es| => Record(es[i]))
  }

  /** `exportCSV(rows)`: the fixed header, then one line per record. */
  function ExportCsv(rows: seq<Entry>): string {
    FixedCsv(Header, Records(rows))
  }

  /**
   * The export of the current search reads back as the header and then, line
   * by line, the fields of each listed record.
   */
  lemma ExportReadsBack(query: string, amounts: nat -> nat)
    ensures |Split(ExportCsv(RecordsFiltered(query, amounts)), '\n')| == |RecordsFiltered(query, amounts)| + 1
    ensures Split(ExportCsv(RecordsFiltered(query, amounts)), '\n')[0] == Header
    ensures forall i | 0 <= i < |RecordsFiltered(query, amounts)| ::
      Split(Split(ExportCsv(RecordsFiltered(query, amounts)), '\n')[i + 1], ',') == Record(RecordsFiltered(query, amounts)[i])
  {
    SamplesExportReadsBack(RecordsFiltered(query, amounts), amounts);
  }

  /** The modal's Export, given the one-element list of the selected record: the header and exactly that record. */
  lemma SingleExport(selected: seq<Entry>, amounts: nat -> nat)
    requires |selected| == 1 && selected[0] in SampleEntries(amounts)
    ensures |Split(ExportCsv(selected), '\n')| == 2
    ensures Split(Split(ExportCsv(selected), '\n')[1], ',') == Record(selected[0])
  {
    SamplesExportReadsBack(selected, amounts);
  }

  lemma SamplesExportReadsBack(es: seq<Entry>, amounts: nat -> nat)
    requires forall e | e in es :: e in SampleEntries(amounts)
    ensures |Split(ExportCsv(es), '\n')| == |es| + 1
    ensures Split(ExportCsv(es), '\n')[0] == Header
    ensures forall i | 0 <= i < |es| :: Split(Split(ExportCsv(es), '\n')[i + 1], ',') == Record(es[i])
  {
    forall i | 0 <= i < |es| ensures AllClean(Records(es)[i]) {
      assert es[i] in SampleEntries(amounts);
      var k :| 0 <= k < 20 && SampleEntries(amounts)[k] == es[i];
      SampleClean(k, amounts(k));
    }
    FixedCsvReadBack(Header, Records(es));
  }

  lemma SampleClean(i: nat, draw: nat)
    ensures AllClean(Record(SampleEntry(i, draw)))
  {
    var e := SampleEntry(i, draw);
    assert Clean(e.id) by { CleanNumbered("CAI-", 3000 + i, ""); }
    assert Clean(e.client) by { ClientsClean(); }
    assert Clean(e.kind) by { KindClean(i); }
    assert Clean(NatToString(e.amount)) by { NumberClean(e.amount); }
    assert Clean(e.status) by { StatusClean(i); }
    assert Clean(e.date) by { CleanNumbered("2025-11-", i % 28 + 1, ""); }
  }

  lemma ClientsClean()
    ensures AllClean(Clients)
  {
    assert Clean(Clients[0]) && Clean(Clients[1]) && Clean(Clients[2]);
  }

  lemma KindClean(i: nat)
    ensures Clean(SampleKind(i))
  {
  }

  lemma StatusClean(i: nat)
    ensures Clean(SampleStatus(i))
  {
  }
}
