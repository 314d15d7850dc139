/**
 * The shipper admin's dashboard
 * (frontend/src/pages/dashboards/shipper/AdminDashboard.jsx): sample
 * shipments and customers, the search over them, the page of eight of the
 * list the active tab shows, and the CSV export of that list.
 *
 * The shipment weights and customer phone numbers are random in the page;
 * here they come from the parameters `weights` and `phones`, whose i-th
 * values stand for the draws of the i-th sample.
 */
module ShipperAdmin {
  import opened JsStrings
  import opened ListView

  datatype Shipment = Shipment(id: string, origin: string, destination: string, status: string, weight: string, eta: string)
  datatype Customer = Customer(id: string, name: string, email: string, phone: string, status: string)

  const PerPage: nat := 8

  const Origins := ["Chennai", "Mumbai", "Kolkata", "Delhi"]
  const Destinations := ["London", "Dubai", "Singapore", "Sydney"]
  const ShipmentStatuses := ["Booked", "In Transit", "At Port", "Delivered"]
  const CustomerNames := ["Global Exports", "Oceanic Traders", "RapidShip"]

  /** The i-th sample shipment; `draw` picks its weight, 50 kg to 1000 kg in steps of 50. */
  function SampleShipment(i: nat, draw: nat): (s: Shipment)
    ensures s.origin == Origins[i % 4] && s.destination == Destinations[i % 4] && s.status == ShipmentStatuses[i % 4]
    ensures s.weight == NatToString((draw % 20 + 1) * 50) + " kg"
  {
    Shipment("SHP-" + NatToString(5000 + i), Origins[i % 4], Destinations[i % 4], ShipmentStatuses[i % 4],
             NatToString((draw % 20 + 1) * 50) + " kg", "2025-12-" + NatToString(i % 28 + 1))
  }

  /** The i-th sample customer: every fourth one, from the first, is on hold. */
  function SampleCustomer(i: nat, draw: nat): (c: Customer)
    ensures c.name == CustomerNames[i % 3]
    ensures c.status == "On hold" <==> i % 4 == 0
    ensures c.status == "Active" <==> i % 4 != 0
  {
    Customer("CUST-" + NatToString(300 + i), CustomerNames[i % 3], "contact" + NatToString(i + 1) + "@example.com",
             "+91-9" + NatToString(100000000 + draw % 900000000), if i % 4 == 0 then "On hold" else "Active")
  }

  /** `SAMPLE_SHIPMENTS`: twenty shipments. */
  function SampleShipments(weights: nat -> nat): (ss: seq<Shipment>)
    ensures |ss| == 20 && forall i | 0 <= i < 20 :: ss[i] == SampleShipment(i, weights(i))
  {
    seq(20, i requires 0 <= i < 20 => SampleShipment(i, weights(i)))
  }

  /** `SAMPLE_CUSTOMERS`: twelve customers. */
  function SampleCustomers(phones: nat -> nat): (cs: seq<Customer>)
    ensures |cs| == 12 && forall i | 0 <= i < 12 :: cs[i] == SampleCustomer(i, phones(i))
  {
    seq(12, i requires 0 <= i < 12 => SampleCustomer(i, phones(i)))
  }

  function ShipmentFields(s: Shipment): seq<string> {
    [s.id, s.origin, s.destination, s.status]
  }

  function CustomerFields(c: Customer): seq<string> {
    [c.id, c.name, c.email]
  }

  /** `shipmentsFiltered`: the shipments whose id, origin, destination or status contains the query. */
  function ShipmentsFiltered(query: string, weights: nat -> nat): (r: seq<Shipment>)
    ensures Query(query) == "" ==> r == SampleShipments(weights)
    ensures forall s :: s in r <==> s in SampleShipments(weights) && (Query(query) == "" || FieldsMatch(ShipmentFields(s), Query(query)))
  {
    Search(SampleShipments(weights), query, ShipmentFields)
  }

  /** `customersFiltered`: the customers whose id, name or e-mail contains the query. */
  function CustomersFiltered(query: string, phones: nat -> nat): (r: seq<Customer>)
    ensures Query(query) == "" ==> r == SampleCustomers(phones)
    ensures forall c :: c in r <==> c in SampleCustomers(phones) && (Query(query) == "" || FieldsMatch(CustomerFields(c), Query(query)))
  {
    Search(SampleCustomers(phones), query, CustomerFields)
  }

  /** The list a tab shows: customers on the `customers` tab, shipments on every other. */
  datatype Listing = Shipments(shipments: seq<Shipment>) | Customers(customers: seq<Customer>)

  function Length(l: Listing): nat {
    match l
    case Shipments(ss) => |ss|
    case Customers(cs) => |cs|
  }

  function Shown(active: string, query: string, weights: nat -> nat, phones: nat -> nat): (l: Listing)
    ensures l.Customers? <==> active == "customers"
    ensures l.Customers? ==> l.customers == CustomersFiltered(query, phones)
    ensures l.Shipments? ==> l.shipments == ShipmentsFiltered(query, weights)
  {
    if active == "customers" then Customers(CustomersFiltered(query, phones)) else Shipments(ShipmentsFiltered(query, weights))
  }

  /** `totalPages`: enough pages of eight for the list the tab shows, and at least one. */
  function PageCount(active: string, query: string, weights: nat -> nat, phones: nat -> nat): (t: nat)
    ensures t >= 1 && Length(Shown(active, query, weights, phones)) <= t * PerPage
    ensures t == 1 || (t - 1) * PerPage < Length(Shown(active, query, weights, phones))
  {
    TotalPages(Length(Shown(active, query, weights, phones)), PerPage)
  }

  /** `pagedItems`: the current page of the list the tab shows, at most eight entries. */
  function PagedItems(active: string, query: string, page: int, weights: nat -> nat, phones: nat -> nat): (l: Listing)
    ensures l.Customers? <==> active == "customers"
    ensures page >= 1 ==> Length(l) <= PerPage
    ensures page > PageCount(active, query, weights, phones) ==> Length(l) == 0
  {
    match Shown(active, query, weights, phones)
    case Shipments(ss) => Shipments(Page(ss, page, PerPage))
    case Customers(cs) => Customers(Page(cs, page, PerPage))
  }

  /** The Next button, clamped to the page count of the current tab and search. */
  method NextPage(s: ListState, weights: nat -> nat, phones: nat -> nat)
    modifies s
    ensures s.query == old(s.query) && s.active == old(s.active)
    ensures s.page == (if PageCount(s.active, s.query, weights, phones) < old(s.page) + 1
                       then PageCount(s.active, s.query, weights, phones) else old(s.page) + 1)
    ensures old(s.page) >= 1 ==> 1 <= s.page <= PageCount(s.active, s.query, weights, phones)
  {
    s.Next(PageCount(s.active, s.query, weights, phones));
  }

  const ShipmentHeaders := ["id", "origin", "destination", "status", "weight", "eta"]
  const CustomerHeaders := ["id", "name", "email", "phone", "status"]

  function ShipmentRow(s: Shipment): map<string, string> {
    map["id" := s.id, "origin" := s.origin, "destination" := s.destination, "status" := s.status, "weight" := s.weight, "eta" := s.eta]
  }

  function CustomerRow(c: Customer): map<string, string> {
    map["id" := c.id, "name" := c.name, "email" := c.email, "phone" := c.phone, "status" := c.status]
  }

  function ShipmentRows(ss: seq<Shipment>): (rows: seq<map<string, string>>)
    ensures |rows| == |ss|
  {
    seq(|ss|, i requires 0 <= i < |ss| => ShipmentRow(ss[i]))
  }

  function CustomerRows(cs: seq<Customer>): (rows: seq<map<string, string>>)
    ensures |rows| == |cs|
  {
    seq(|cs|, i requires 0 <= i < |cs| => CustomerRow(cs[i]))
  }

  /** The Export CSV button: the customers on the `customers` tab, otherwise the shipments, of the current search. */
  function ExportCsv(active: string, query: string, weights: nat -> nat, phones: nat -> nat): string {
    match Shown(active, query, weights, phones)
    case Shipments(ss) => Csv(ShipmentHeaders, ShipmentRows(ss))
    case Customers(cs) => Csv(CustomerHeaders, CustomerRows(cs))
  }

  /**
   * The export has the header line of the list the tab shows and then one
   * line for each of its entries, in order, holding that entry's fields in
   * column order.
   */
  lemma ExportOneLinePerRow(active: string, query: string, weights: nat -> nat, phones: nat -> nat)
    ensures |Split(ExportCsv(active, query, weights, phones), '\n')| == 1 + Length(Shown(active, query, weights, phones))
    ensures Split(Split(ExportCsv(active, query, weights, phones), '\n')[0], ',') == Headers(Shown(active, query, weights, phones))
    ensures forall i | 0 <= i < Length(Shown(active, query, weights, phones)) ::
      Split(Split(ExportCsv(active, query, weights, phones), '\n')[i + 1], ',') == EntryCells(Shown(active, query, weights, phones), i)
  {
    match Shown(active, query, weights, phones)
    case Shipments(ss) => ShipmentsReadBack(ss, weights);
    case Customers(cs) => CustomersReadBack(cs, phones);
  }

  lemma ShipmentsReadBack(ss: seq<Shipment>, weights: nat -> nat)
    requires forall s | s in ss :: s in SampleShipments(weights)
    ensures |Split(Csv(ShipmentHeaders, ShipmentRows(ss)), '\n')| == 1 + |ss|
    ensures Split(Split(Csv(ShipmentHeaders, ShipmentRows(ss)), '\n')[0], ',') == ["id", "origin", "destination", "status", "weight", "eta"]
    ensures forall i | 0 <= i < |ss| :: Split(Split(Csv(ShipmentHeaders, ShipmentRows(ss)), '\n')[i + 1], ',') == ShipmentCells(ss[i])
  {
    ShipmentsUnquoted(ss, weights);
    CsvReadBack(ShipmentHeaders, ShipmentRows(ss));
    forall i | 0 <= i < |ss| ensures Cells(ShipmentHeaders, ShipmentRows(ss)[i]) == ShipmentCells(ss[i]) {
      ShipmentRowCells(ss[i]);
    }
  }

  lemma CustomersReadBack(cs: seq<Customer>, phones: nat -> nat)
    requires forall c | c in cs :: c in SampleCustomers(phones)
    ensures |Split(Csv(CustomerHeaders, CustomerRows(cs)), '\n')| == 1 + |cs|
    ensures Split(Split(Csv(CustomerHeaders, CustomerRows(cs)), '\n')[0], ',') == ["id", "name", "email", "phone", "status"]
    ensures forall i | 0 <= i < |cs| :: Split(Split(Csv(CustomerHeaders, CustomerRows(cs)), '\n')[i + 1], ',') == CustomerCells(cs[i])
  {
    CustomersUnquoted(cs, phones);
    CsvReadBack(CustomerHeaders, CustomerRows(cs));
    forall i | 0 <= i < |cs| ensures Cells(CustomerHeaders, CustomerRows(cs)[i]) == CustomerCells(cs[i]) {
      CustomerRowCells(cs[i]);
    }
  }

  /** The column names of the export of a listing. */
  function Headers(l: Listing): seq<string> {
    match l
    case Shipments(_) => ShipmentHeaders
    case Customers(_) => CustomerHeaders
  }

  /** The fields of the i-th entry of a listing, in the export's column order. */
  function EntryCells(l: Listing, i: nat): seq<string>
    requires i < Length(l)
  {
    match l
    case Shipments(ss) => ShipmentCells(ss[i])
    case Customers(cs) => CustomerCells(cs[i])
  }

  function ShipmentCells(s: Shipment): seq<string> {
    [s.id, s.origin, s.destination, s.status, s.weight, s.eta]
  }

  function CustomerCells(c: Customer): seq<string> {
    [c.id, c.name, c.email, c.phone, c.status]
  }

  lemma ShipmentRowCells(s: Shipment)
    ensures Cells(ShipmentHeaders, ShipmentRow(s)) == ShipmentCells(s)
  {
  }

  lemma CustomerRowCells(c: Customer)
    ensures Cells(CustomerHeaders, CustomerRow(c)) == CustomerCells(c)
  {
  }

  lemma ShipmentsUnquoted(ss: seq<Shipment>, weights: nat -> nat)
    requires forall s | s in ss :: s in SampleShipments(weights)
    ensures Unquoted(ShipmentHeaders, ShipmentRows(ss))
  {
    assert AllClean(ShipmentHeaders) by {
      assert Clean(ShipmentHeaders[0]) && Clean(ShipmentHeaders[1]) && Clean(ShipmentHeaders[2]);
      assert Clean(ShipmentHeaders[3]) && Clean(ShipmentHeaders[4]) && Clean(ShipmentHeaders[5]);
    }
    forall i | 0 <= i < |ss| ensures CleanRow(ShipmentRows(ss)[i]) {
      assert ss[i] in SampleShipments(weights);
      var k :| 0 <= k < 20 && SampleShipments(weights)[k] == ss[i];
      ShipmentClean(k, weights(k));
    }
  }

  lemma CustomersUnquoted(cs: seq<Customer>, phones: nat -> nat)
    requires forall c | c in cs :: c in SampleCustomers(phones)
    ensures Unquoted(CustomerHeaders, CustomerRows(cs))
  {
    assert AllClean(CustomerHeaders) by {
      assert Clean(CustomerHeaders[0]) && Clean(CustomerHeaders[1]) && Clean(CustomerHeaders[2]);
      assert Clean(CustomerHeaders[3]) && Clean(CustomerHeaders[4]);
    }
    forall i | 0 <= i < |cs| ensures CleanRow(CustomerRows(cs)[i]) {
      assert cs[i] in SampleCustomers(phones);
      var k :| 0 <= k < 12 && SampleCustomers(phones)[k] == cs[i];
      CustomerClean(k, phones(k));
    }
  }

  lemma ShipmentClean(i: nat, draw: nat)
    ensures CleanRow(ShipmentRow(SampleShipment(i, draw)))
  {
    var s := SampleShipment(i, draw);
    assert Clean(s.id) by { CleanNumbered("SHP-", 5000 + i, ""); }
    assert Clean(s.weight) by { CleanNumbered("", (draw % 20 + 1) * 50, " kg"); }
    assert Clean(s.eta) by { CleanNumbered("2025-12-", i % 28 + 1, ""); }
    assert Clean(s.origin) by { OriginsClean(); }
    assert Clean(s.destination) by { DestinationsClean(); }
    assert Clean(s.status) by { StatusesClean(); }
    CleanRow6(s.id, s.origin, s.destination, s.status, s.weight, s.eta);
  }

  lemma OriginsClean()
    ensures AllClean(Origins)
  {
    assert Clean(Origins[0]) && Clean(Origins[1]) && Clean(Origins[2]) && Clean(Origins[3]);
  }

  lemma DestinationsClean()
    ensures AllClean(Destinations)
  {
    assert Clean(Destinations[0]) && Clean(Destinations[1]) && Clean(Destinations[2]) && Clean(Destinations[3]);
  }

  lemma StatusesClean()
    ensures AllClean(ShipmentStatuses)
  {
    assert Clean(ShipmentStatuses[0]) && Clean(ShipmentStatuses[1]) && Clean(ShipmentStatuses[2]) && Clean(ShipmentStatuses[3]);
  }

  lemma CustomerNamesClean()
    ensures AllClean(CustomerNames)
  {
    assert Clean(CustomerNames[0]) && Clean(CustomerNames[1]) && Clean(CustomerNames[2]);
  }

  lemma CleanRow6(a: string, b: string, c: string, d: string, e: string, f: string)
    requires Clean(a) && Clean(b) && Clean(c) && Clean(d) && Clean(e) && Clean(f)
    ensures CleanRow(map["id" := a, "origin" := b, "destination" := c, "status" := d, "weight" := e, "eta" := f])
  {
  }

  lemma CustomerClean(i: nat, draw: nat)
    ensures CleanRow(CustomerRow(SampleCustomer(i, draw)))
  {
    var c := SampleCustomer(i, draw);
    CleanNumbered("CUST-", 300 + i, "");
    CleanNumbered("contact", i + 1, "@example.com");
    CleanNumbered("+91-9", 100000000 + draw % 900000000, "");
    CustomerNameClean(i % 3);
    CustomerStatusClean(i, draw);
    CleanRow5(c.id, c.name, c.email, c.phone, c.status);
  }

  lemma CustomerNameClean(k: nat)
    requires k < 3
    ensures Clean(CustomerNames[k])
  {
    CustomerNamesClean();
  }

  lemma CustomerStatusClean(i: nat, draw: nat)
    ensures Clean(SampleCustomer(i, draw).status)
  {
    assert Clean("On hold") && Clean("Active");
  }

  lemma CleanRow5(a: string, b: string, c: string, d: string, e: string)
    requires Clean(a) && Clean(b) && Clean(c) && Clean(d) && Clean(e)
    ensures CleanRow(map["id" := a, "name" := b, "email" := c, "phone" := d, "status" := e])
  {
  }
}
