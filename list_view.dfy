/**
 * The list logic the dashboard pages repeat: the search box (a trimmed,
 * lower-cased query matched against some fields of each item), the page
 * count `max(1, ceil(n / perPage))`, the page slice, the Prev/Next buttons,
 * and the comma-separated export.
 */
module ListView {
  import opened JsStrings

  /** `query.trim().toLowerCase()`. */
  function Query(raw: string): (q: string)
    ensures |q| <= |raw|
    ensures AllSpace(raw) ==> q == ""
    ensures q == ToLower(Trim(raw))
  {
    TrimStartAllSpace(raw);
    ToLower(Trim(raw))
  }

  lemma TrimStartAllSpace(s: string)
    ensures AllSpace(s) ==> TrimStart(s) == ""
  {
  }

  /** `Array.prototype.filter`: the items passing `p`, in their order. */
  function Keep<T(!new)>(items: seq<T>, p: T -> bool): (r: seq<T>)
    ensures |r| <= |items|
    ensures forall x :: x in r <==> x in items && p(x)
  {
    if items == [] then []
    else if p(items[0]) then [items[0]] + Keep(items[1..], p)
    else Keep(items[1..], p)
  }

  /** Filtering a concatenation filters each part: the kept items stay in their order. */
  lemma {:induction false} KeepAppend<T(!new)>(a: seq<T>, b: seq<T>, p: T -> bool)
    ensures Keep(a + b, p) == Keep(a, p) + Keep(b, p)
  {
    if a == [] {
      assert a + b == b;
    } else {
      assert (a + b)[1..] == a[1..] + b;
      KeepAppend(a[1..], b, p);
    }
  }

  /** A filter every item passes keeps the list as it is. */
  lemma {:induction false} KeepAll<T(!new)>(items: seq<T>, p: T -> bool)
    requires forall k | 0 <= k < |items| :: p(items[k])
    ensures Keep(items, p) == items
  {
    if items != [] {
      KeepAll(items[1..], p);
    }
  }

  /** One of the item's search fields, lower-cased, contains the query. */
  predicate FieldsMatch(fields: seq<string>, q: string) {
    exists k | 0 <= k < |fields| :: Includes(ToLower(fields[k]), q)
  }

  /** A list with one more field matches when the shorter list or the added field does. */
  lemma FieldsMatchSnoc(fields: seq<string>, x: string, q: string)
    ensures FieldsMatch(fields + [x], q) <==> FieldsMatch(fields, q) || Includes(ToLower(x), q)
  {
    var all := fields + [x];
    if FieldsMatch(all, q) {
      var k :| 0 <= k < |all| && Includes(ToLower(all[k]), q);
      if k < |fields| {
        assert all[k] == fields[k];
      }
    }
    if FieldsMatch(fields, q) {
      var k :| 0 <= k < |fields| && Includes(ToLower(fields[k]), q);
      assert all[k] == fields[k];
    }
    assert all[|fields|] == x;
  }

  /** Whether the search box keeps an item: always on a blank query, otherwise when a field matches. */
  predicate Shown<T>(raw: string, fields: T -> seq<string>, x: T) {
    Query(raw) == "" || FieldsMatch(fields(x), Query(raw))
  }

  /**
   * The filtered list of a page: the whole list for a blank query, otherwise
   * the items one of whose fields contains the query, in list order.
   */
  function Search<T(!new)>(items: seq<T>, raw: string, fields: T -> seq<string>): (r: seq<T>)
    ensures Query(raw) == "" ==> r == items
    ensures forall x :: x in r <==> x in items && (Query(raw) == "" || FieldsMatch(fields(x), Query(raw)))
    ensures |r| <= |items|
  {
    var p := x => Shown(raw, fields, x);
    BlankQueryKeepsAll(items, raw, fields);
    Keep(items, p)
  }

  lemma BlankQueryKeepsAll<T(!new)>(items: seq<T>, raw: string, fields: T -> seq<string>)
    ensures Query(raw) == "" ==> Keep(items, x => Shown(raw, fields, x)) == items
  {
    if Query(raw) == "" {
      KeepAll(items, x => Shown(raw, fields, x));
    }
  }

  /** The search distributes over concatenation, so it never reorders items. */
  lemma SearchAppend<T(!new)>(a: seq<T>, b: seq<T>, raw: string, fields: T -> seq<string>)
    ensures Search(a + b, raw, fields) == Search(a, raw, fields) + Search(b, raw, fields)
  {
    KeepAppend(a, b, x => Shown(raw, fields, x));
  }

  /** `String(n)` is all digits, which lower-casing leaves alone, so the pages that skip `toLowerCase` on a number match the same way. */
  lemma LowerOfNumber(n: nat)
    ensures ToLower(NatToString(n)) == NatToString(n)
  {
    var s := NatToString(n);
    assert forall k | 0 <= k < |s| :: LowerChar(s[k]) == s[k];
  }

  /** `Math.max(1, Math.ceil(n / perPage))`. */
  function TotalPages(n: nat, perPage: nat): (t: nat)
    requires perPage > 0
    ensures t >= 1
    ensures n <= t * perPage
    ensures t == 1 || (t - 1) * perPage < n
  {
    var c := (n + perPage - 1) / perPage;
    if c < 1 then 1 else c
  }

  /** `Array.prototype.slice(start, end)`: negative bounds count from the end, bounds are clipped to the list. */
  function JsSlice<T>(s: seq<T>, start: int, end: int): (r: seq<T>)
    ensures |r| <= |s|
    ensures 0 <= start <= end ==> |r| <= end - start
    ensures 0 <= start <= |s| && start <= end ==> r == s[start..if end < |s| then end else |s|]
    ensures start >= |s| ==> r == []
  {
    var from := if start < 0 then (if |s| + start < 0 then 0 else |s| + start)
                else (if start < |s| then start else |s|);
    var to := if end < 0 then (if |s| + end < 0 then 0 else |s| + end)
              else (if end < |s| then end else |s|);
    if from < to then s[from..to] else []
  }

  /** `items.slice((page - 1) * perPage, page * perPage)`. */
  function Page<T>(items: seq<T>, page: int, perPage: nat): (r: seq<T>)
    requires perPage > 0
    ensures page >= 1 ==> |r| <= perPage
    ensures page > TotalPages(|items|, perPage) ==> r == []
    ensures 1 <= page <= TotalPages(|items|, perPage) && |items| > 0 ==> r != []
  {
    PageBounds(|items|, page, perPage);
    JsSlice(items, (page - 1) * perPage, page * perPage)
  }

  /** Where a page starts relative to the end of the list. */
  lemma PageBounds(n: nat, page: int, perPage: nat)
    requires perPage > 0
    ensures page > TotalPages(n, perPage) ==> (page - 1) * perPage >= n
    ensures 1 <= page <= TotalPages(n, perPage) && n > 0 ==> (page - 1) * perPage < n
  {
    var t := TotalPages(n, perPage);
    if page > t {
      MulMono(t, page - 1, perPage);
    }
    if 1 <= page <= t && n > 0 && t > 1 {
      MulMono(page - 1, t - 1, perPage);
    }
  }

  lemma MulMono(a: int, b: int, c: int)
    requires a <= b && 0 <= c
    ensures a * c <= b * c
  {
    assert b * c - a * c == (b - a) * c;
  }

  /** Pages 1 to `k` one after another. */
  function Pages<T>(items: seq<T>, perPage: nat, k: nat): seq<T>
    requires perPage > 0
  {
    if k == 0 then [] else Pages(items, perPage, k - 1) + Page(items, k, perPage)
  }

  /** The first `k` pages are the first `k * perPage` items. */
  lemma {:induction false} PagesPrefix<T>(items: seq<T>, perPage: nat, k: nat)
    requires perPage > 0
    ensures Pages(items, perPage, k) == items[..if k * perPage < |items| then k * perPage else |items|]
  {
    if k > 0 {
      PagesPrefix(items, perPage, k - 1);
      var a := (k - 1) * perPage;
      var b := k * perPage;
      var ca := if a < |items| then a else |items|;
      var cb := if b < |items| then b else |items|;
      PageSlice(items, k, perPage, a, b);
      PrefixThenSlice(items, ca, cb);
    }
  }

  lemma PrefixThenSlice<T>(s: seq<T>, i: nat, j: nat)
    requires i <= j <= |s|
    ensures s[..i] + s[i..j] == s[..j]
  {
  }

  /** Page `k` is the slice between the clipped ends of pages `k - 1` and `k`. */
  lemma PageSlice<T>(items: seq<T>, k: nat, perPage: nat, a: nat, b: nat)
    requires perPage > 0 && k > 0 && a == (k - 1) * perPage && b == k * perPage
    ensures a <= b
    ensures (if a < |items| then a else |items|) <= (if b < |items| then b else |items|)
    ensures Page(items, k, perPage) == items[(if a < |items| then a else |items|)..(if b < |items| then b else |items|)]
  {
    assert b == a + perPage;
  }

  /** The pages from 1 to the page count hold every item exactly once, in order. */
  lemma PagesPartition<T>(items: seq<T>, perPage: nat)
    requires perPage > 0
    ensures Pages(items, perPage, TotalPages(|items|, perPage)) == items
  {
    PagesPrefix(items, perPage, TotalPages(|items|, perPage));
  }

  /** `r[h] ?? ''`: the value of a column, empty when the row has none. */
  function Cell(row: map<string, string>, h: string): string {
    if h in row then row[h] else ""
  }

  /** The row's value for each header, in header order. */
  function Cells(headers: seq<string>, row: map<string, string>): (cells: seq<string>)
    ensures |cells| == |headers|
  {
    seq(|headers|, i requires 0 <= i < |headers| => Cell(row, headers[i]))
  }

  /** One export line: the row's cells joined by `,`. */
  function CsvLine(headers: seq<string>, row: map<string, string>): string {
    Join(Cells(headers, row), ",")
  }

  /** The export: the header line, then one line per row, joined by line feeds. */
  function Csv(headers: seq<string>, rows: seq<map<string, string>>): string {
    Join([Join(headers, ",")] + seq(|rows|, i requires 0 <= i < |rows| => CsvLine(headers, rows[i])), "\n")
  }

  /** A join of parts that do not hold `c`, on a separator without `c`, does not hold `c`. */
  lemma {:induction false} JoinFree(parts: seq<string>, sep: string, c: char)
    requires c !in sep && forall k | 0 <= k < |parts| :: c !in parts[k]
    ensures c !in Join(parts, sep)
  {
    if |parts| > 1 {
      JoinFree(parts[1..], sep, c);
    }
  }

  /** Text that needs no quoting in the export: no line feed and no comma. */
  predicate Clean(s: string) {
    '\n' !in s && ',' !in s
  }

  /** A number's decimal text needs no quoting. */
  lemma NumberClean(n: nat)
    ensures Clean(NatToString(n))
  {
    var s := NatToString(n);
    assert forall k | 0 <= k < |s| :: IsDigit(s[k]);
  }

  /** Every text of a list needs no quoting. */
  predicate AllClean(xs: seq<string>) {
    forall k | 0 <= k < |xs| :: Clean(xs[k])
  }

  /** A number framed by text that needs no quoting needs none either. */
  lemma CleanNumbered(before: string, n: nat, after: string)
    requires Clean(before) && Clean(after)
    ensures Clean(before + NatToString(n) + after)
  {
    NumberClean(n);
  }

  /** A row whose values all need no quoting. */
  predicate CleanRow(row: map<string, string>) {
    forall h | h in row :: Clean(row[h])
  }

  /** No header or value holds a line feed or a comma. */
  predicate Unquoted(headers: seq<string>, rows: seq<map<string, string>>) {
    (forall k | 0 <= k < |headers| :: Clean(headers[k]))
    && (forall i | 0 <= i < |rows| :: CleanRow(rows[i]))
  }

  /** Read back line by line, the export is the header line and then exactly one line per row. */
  lemma CsvLines(headers: seq<string>, rows: seq<map<string, string>>)
    requires Unquoted(headers, rows)
    ensures Split(Csv(headers, rows), '\n') ==
            [Join(headers, ",")] + seq(|rows|, i requires 0 <= i < |rows| => CsvLine(headers, rows[i]))
  {
    var body := seq(|rows|, i requires 0 <= i < |rows| => CsvLine(headers, rows[i]));
    var lines := [Join(headers, ",")] + body;
    JoinFree(headers, ",", '\n');
    forall i | 0 <= i < |rows| ensures '\n' !in body[i] {
      CsvLineFree(headers, rows[i]);
    }
    forall k | 0 <= k < |lines| ensures '\n' !in lines[k] {
      if k > 0 {
        assert lines[k] == body[k - 1];
      }
    }
    SplitJoin(lines, '\n');
  }

  lemma CsvLineFree(headers: seq<string>, row: map<string, string>)
    requires CleanRow(row)
    ensures '\n' !in CsvLine(headers, row)
  {
    var cells := Cells(headers, row);
    forall j | 0 <= j < |cells| ensures '\n' !in cells[j] {
      assert cells[j] == Cell(row, headers[j]);
    }
    JoinFree(cells, ",", '\n');
  }

  /** The export has one line more than it has rows. */
  lemma CsvLineCount(headers: seq<string>, rows: seq<map<string, string>>)
    requires Unquoted(headers, rows)
    ensures |Split(Csv(headers, rows), '\n')| == |rows| + 1
  {
    CsvLines(headers, rows);
  }

  /** An export written out by hand: a fixed header line, then each record's fields joined by commas, one record per line. */
  function FixedCsv(header: string, records: seq<seq<string>>): string {
    Join([header] + seq(|records|, i requires 0 <= i < |records| => Join(records[i], ",")), "\n")
  }

  /**
   * When no field holds a comma or a line feed, the hand-written export reads
   * back as the header line and then, line by line, the fields of each record.
   */
  lemma FixedCsvReadBack(header: string, records: seq<seq<string>>)
    requires '\n' !in header
    requires forall i | 0 <= i < |records| :: |records[i]| >= 1 && AllClean(records[i])
    ensures |Split(FixedCsv(header, records), '\n')| == |records| + 1
    ensures Split(FixedCsv(header, records), '\n')[0] == header
    ensures forall i | 0 <= i < |records| :: Split(Split(FixedCsv(header, records), '\n')[i + 1], ',') == records[i]
  {
    var lines := [header] + seq(|records|, i requires 0 <= i < |records| => Join(records[i], ","));
    forall i | 0 <= i < |records| ensures '\n' !in Join(records[i], ",") && Split(Join(records[i], ","), ',') == records[i] {
      JoinFree(records[i], ",", '\n');
      SplitJoin(records[i], ',');
    }
    SplitJoin(lines, '\n');
  }

  /** Read back cell by cell, a line holds the row's values in header order. */
  lemma CsvCells(headers: seq<string>, row: map<string, string>)
    requires |headers| >= 1
    requires forall h | h in row :: ',' !in row[h]
    ensures Split(CsvLine(headers, row), ',') == Cells(headers, row)
  {
    var cells := Cells(headers, row);
    forall j | 0 <= j < |cells| ensures ',' !in cells[j] {
      assert cells[j] == Cell(row, headers[j]);
    }
    SplitJoin(cells, ',');
  }

  /**
   * Read back line by line and cell by cell, the export is the header line
   * and then, for each row in order, that row's cells in header order.
   */
  lemma CsvReadBack(headers: seq<string>, rows: seq<map<string, string>>)
    requires |headers| >= 1 && Unquoted(headers, rows)
    ensures |Split(Csv(headers, rows), '\n')| == |rows| + 1
    ensures Split(Csv(headers, rows), '\n')[0] == Join(headers, ",")
    ensures Split(Split(Csv(headers, rows), '\n')[0], ',') == headers
    ensures forall i | 0 <= i < |rows| :: Split(Split(Csv(headers, rows), '\n')[i + 1], ',') == Cells(headers, rows[i])
  {
    CsvLines(headers, rows);
    SplitJoin(headers, ',');
    forall i | 0 <= i < |rows| ensures Split(Split(Csv(headers, rows), '\n')[i + 1], ',') == Cells(headers, rows[i]) {
      assert Split(Csv(headers, rows), '\n')[i + 1] == CsvLine(headers, rows[i]);
      CsvCells(headers, rows[i]);
    }
  }

  /**
   * The view state of a list page: the search text, the open tab and the
   * current page. Editing the search and choosing a tab go back to page 1.
   */
  class ListState {
    var query: string
    var active: string
    var page: int

    constructor(tab: string)
      ensures query == "" && active == tab && page == 1
    {
      query := "";
      active := tab;
      page := 1;
    }

    /** The search box's `onChange`: new text, back to page 1. */
    method EditQuery(text: string)
      modifies this
      ensures query == text && page == 1 && active == old(active)
    {
      query := text;
      page := 1;
    }

    /** A navigation tab: new tab, back to page 1. */
    method SelectTab(tab: string)
      modifies this
      ensures active == tab && page == 1 && query == old(query)
    {
      active := tab;
      page := 1;
    }

    /** A shortcut button that only switches the tab and keeps the page. */
    method QuickTab(tab: string)
      modifies this
      ensures active == tab && page == old(page) && query == old(query)
    {
      active := tab;
    }

    /** Prev: `Math.max(1, p - 1)`. */
    method Prev()
      modifies this
      ensures page == (if old(page) - 1 < 1 then 1 else old(page) - 1)
      ensures query == old(query) && active == old(active)
      ensures page >= 1
      ensures old(page) >= 1 ==> page <= old(page)
    {
      page := if page - 1 < 1 then 1 else page - 1;
    }

    /** Next: `Math.min(totalPages, p + 1)`. */
    method Next(totalPages: int)
      modifies this
      ensures page == (if totalPages < old(page) + 1 then totalPages else old(page) + 1)
      ensures query == old(query) && active == old(active)
      ensures page <= totalPages
      ensures totalPages >= 1 && old(page) >= 1 ==> 1 <= page <= totalPages
    {
      page := if totalPages < page + 1 then totalPages else page + 1;
    }
  }
}
