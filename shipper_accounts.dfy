/**
 * The shipper accounts dashboard
 * (frontend/src/pages/dashboards/shipper/AccountsDashboard.jsx): the sample
 * invoices, the search over them, their pages of eight and the hand-written
 * CSV export.
 *
 * The amount of each sample is random in the page; here the parameter
 * `amounts` gives the draw of the i-th sample.
 */
module ShipperAccounts {
  import opened JsStrings
  import opened ListView

  datatype Invoice = Invoice(id: string, customer: string, amount: nat, status: string, date: string)

  const PerPage: nat := 8

  const Customers := ["Alpha Logistics", "Blue Freight", "Ceylon Cargo"]

  /** The status of the i-th sample: every fourth is overdue, of the rest every third part paid, the others pending. */
  function SampleStatus(i: nat): (s: string)
    ensures s == "Overdue" <==> i % 4 == 0
    ensures s == "Part Paid" <==> i % 4 != 0 && i % 3 == 0
    ensures s == "Pending" <==> i % 4 != 0 && i % 3 != 0
  {
    if i % 4 == 0 then "Overdue" else if i % 3 == 0 then "Part Paid" else "Pending"
  }

  /** The i-th sample invoice; `draw` picks its amount, 2000 to 11900 in steps of 100. */
  function SampleInvoice(i: nat, draw: nat): (v: Invoice)
    ensures v.customer == Customers[i % 3] && v.status == SampleStatus(i)
    ensures 2000 <= v.amount <= 11900 && v.amount % 100 == 0
  {
    Invoice("INV-" + NatToString(2000 + i), Customers[i % 3], (draw % 100 + 20) * 100,
            SampleStatus(i), "2025-11-" + NatToString(i % 28 + 1))
  }

  /** `SAMPLE_INVOICES`: eighteen invoices. */
  function SampleInvoices(amounts: nat -> nat): (vs: seq<Invoice>)
    ensures |vs| == 18 && forall i | 0 <= i < 18 :: vs[i] == SampleInvoice(i, amounts(i))
  {
    seq(18, i requires 0 <= i < 18 => SampleInvoice(i, amounts(i)))
  }

  /** The text fields the search lower-cases before matching. */
  function TextFields(v: Invoice): seq<string> {
    [v.id, v.customer, v.status]
  }

  function SearchFields(v: Invoice): seq<string> {
    TextFields(v) + [NatToString(v.amount)]
  }

  /**
   * `invoicesFiltered`: the invoices whose id, customer or status,
   * lower-cased, or whose amount written in decimal contains the query.
   */
  function InvoicesFiltered(query: string, amounts: nat -> nat): (r: seq<Invoice>)
    ensures Query(query) == "" ==> r == SampleInvoices(amounts)
    ensures forall v :: v in r <==> (v in SampleInvoices(amounts) &&
      (Query(query) == "" || FieldsMatch(TextFields(v), Query(query)) || Includes(NatToString(v.amount), Query(query))))
  {
    forall v ensures FieldsMatch(SearchFields(v), Query(query)) <==>
      FieldsMatch(TextFields(v), Query(query)) || Includes(NatToString(v.amount), Query(query)) {
      LowerOfNumber(v.amount);
      FieldsMatchSnoc(TextFields(v), NatToString(v.amount), Query(query));
    }
    Search(SampleInvoices(amounts), query, SearchFields)
  }

  /** `totalPages`: enough pages of eight for the filtered invoices, and at least one. */
  function PageCount(query: string, amounts: nat -> nat): (t: nat)
    ensures t >= 1 && |InvoicesFiltered(query, amounts)| <= t * PerPage
    ensures t == 1 || (t - 1) * PerPage < |InvoicesFiltered(query, amounts)|
  {
    TotalPages(|InvoicesFiltered(query, amounts)|, PerPage)
  }

  /** `paged`: the invoices of the current page, at most eight, none past the last page. */
  function Paged(query: string, page: int, amounts: nat -> nat): (r: seq<Invoice>)
    ensures page >= 1 ==> |r| <= PerPage
    ensures page > PageCount(query, amounts) ==> r == []
    ensures 1 <= page <= PageCount(query, amounts) && InvoicesFiltered(query, amounts) != [] ==> r != []
  {
    var items := InvoicesFiltered(query, amounts);
    assert PageCount(query, amounts) == TotalPages(|items|, PerPage);
    Page(items, page, PerPage)
  }

  /** The Next button, clamped to the page count of the current search. */
  method NextPage(s: ListState, amounts: nat -> nat)
    modifies s
    ensures s.query == old(s.query) && s.active == old(s.active)
    ensures s.page == (if PageCount(s.query, amounts) < old(s.page) + 1 then PageCount(s.query, amounts) else old(s.page) + 1)
    ensures old(s.page) >= 1 ==> 1 <= s.page <= PageCount(s.query, amounts)
  {
    s.Next(PageCount(s.query, amounts));
  }

  const Header := "id,customer,amount,status,date"
  const HeaderNames := ["id", "customer", "amount", "status", "date"]

  /** The fixed header names the invoice fields in the order each line writes them. */
  lemma HeaderNamesTheFields()
    ensures Join(HeaderNames, ",") == Header
    ensures Split(Header, ',') == HeaderNames
  {
    HeaderJoin();
    HeaderNamesClean();
    SplitJoin(HeaderNames, ',');
  }

  lemma HeaderJoin()
    ensures Join(HeaderNames, ",") == Header
  {
  }

  lemma HeaderNamesClean()
    ensures AllClean(HeaderNames)
  {
    assert Clean(HeaderNames[0]) && Clean(HeaderNames[1]) && Clean(HeaderNames[2]);
    assert Clean(HeaderNames[3]) && Clean(HeaderNames[4]);
  }

  /** The fields of one line of the export, in header order. */
  function Record(v: Invoice): (fs: seq<string>)
    ensures |fs| == |HeaderNames|
  {
    [v.id, v.customer, NatToString(v.amount), v.status, v.date]
  }

  function Records(vs: seq<Invoice>): (rs: seq<seq<string>>)
    ensures |rs| == |vs| && forall i | 0 <= i < |vs| :: rs[i] == Record(vs[i])
  {
    seq(|vs|, i requires 0 <= i < |vs| => Record(vs[i]))
  }

  /** `exportCSV(rows)`: the fixed header, then one line per invoice. */
  function ExportCsv(rows: seq<Invoice>): string {
    FixedCsv(Header, Records(rows))
  }

  /**
   * The export of the current search reads back as the header and then, line
   * by line, the fields of each listed invoice.
   */
  lemma ExportReadsBack(query: string, amounts: nat -> nat)
    ensures |Split(ExportCsv(InvoicesFiltered(query, amounts)), '\n')| == |InvoicesFiltered(query, amounts)| + 1
    ensures Split(ExportCsv(InvoicesFiltered(query, amounts)), '\n')[0] == Header
    ensures forall i | 0 <= i < |InvoicesFiltered(query, amounts)| ::
      Split(Split(ExportCsv(InvoicesFiltered(query, amounts)), '\n')[i + 1], ',') == Record(InvoicesFiltered(query, amounts)[i])
  {
    SamplesExportReadsBack(InvoicesFiltered(query, amounts), amounts);
  }

  lemma SamplesExportReadsBack(vs: seq<Invoice>, amounts: nat -> nat)
    requires forall v | v in vs :: v in SampleInvoices(amounts)
    ensures |Split(ExportCsv(vs), '\n')| == |vs| + 1
    ensures Split(ExportCsv(vs), '\n')[0] == Header
    ensures forall i | 0 <= i < |vs| :: Split(Split(ExportCsv(vs), '\n')[i + 1], ',') == Record(vs[i])
  {
    forall i | 0 <= i < |vs| ensures AllClean(Records(vs)[i]) {
      assert vs[i] in SampleInvoices(amounts);
      var k :| 0 <= k < 18 && SampleInvoices(amounts)[k] == vs[i];
      SampleClean(k, amounts(k));
    }
    FixedCsvReadBack(Header, Records(vs));
  }

  lemma SampleClean(i: nat, draw: nat)
    ensures AllClean(Record(SampleInvoice(i, draw)))
  {
    var v := SampleInvoice(i, draw);
    CleanNumbered("INV-", 2000 + i, "");
    CustomersClean();
    NumberClean(v.amount);
    SampleStatusClean(i);
    CleanNumbered("2025-11-", i % 28 + 1, "");
  }

  lemma SampleStatusClean(i: nat)
    ensures Clean(SampleStatus(i))
  {
  }

  lemma CustomersClean()
    ensures AllClean(Customers)
  {
    assert Clean(Customers[0]) && Clean(Customers[1]) && Clean(Customers[2]);
  }
}
