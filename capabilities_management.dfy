/** The capabilities list: its search and filters, the CSV export of the filtered list, and the
    CSV import that adds one capability per accepted row. */
module CapabilitiesManagement {
  import opened Wrappers
  import opened Types
  import opened Text
  import Seqs
  import ProjectStore

  // ---------------------------------------------------------------- filtering

  /** The search box and the three filter selections; `all` switches a filter off. */
  datatype Filters = Filters(search: string, workstream: string, status: string, rag: string)

  const NoFilters := Filters("", "all", "all", "all")

  /** The lower-cased search term occurs in the lower-cased name, workstream or lead name. */
  predicate SearchMatch(c: Capability, search: string) {
    var term := ToLower(search);
    Contains(ToLower(c.name), term) || Contains(ToLower(c.workstream), term) ||
    Contains(ToLower(c.workstreamLead.name), term)
  }

  predicate Matches(c: Capability, f: Filters) {
    SearchMatch(c, f.search) &&
    (f.workstream == "all" || c.workstream == f.workstream) &&
    (f.status == "all" || c.status == f.status) &&
    (f.rag == "all" || c.rag == f.rag)
  }

  /** `filteredCapabilities`. */
  function Filtered(caps: seq<Capability>, f: Filters): seq<Capability> {
    Seqs.Filter(caps, (c: Capability) => Matches(c, f))
  }

  /** The filtered list keeps, in their order, exactly the capabilities that match. */
  lemma FilteredFacts(caps: seq<Capability>, f: Filters)
    ensures Seqs.SubsequenceOf(Filtered(caps, f), caps)
    ensures forall c :: c in Filtered(caps, f) <==> c in caps && Matches(c, f)
  {
    Seqs.FilterIsSubsequence(caps, (c: Capability) => Matches(c, f));
  }

  /** After a reset (empty search, every filter `all`) the list shows every capability. */
  lemma ResetShowsAll(caps: seq<Capability>)
    ensures Filtered(caps, NoFilters) == caps
  {
    forall c | c in caps ensures Matches(c, NoFilters) {
      assert OccursAt(ToLower(c.name), ToLower(""), 0);
    }
    Seqs.FilterKeepsAll(caps, (c: Capability) => Matches(c, NoFilters));
  }

  // ---------------------------------------------------------------- export

  const ExportHeaders: seq<string> :=
    ["Name", "Workstream", "Lead", "SME", "BA", "Status", "RAG", "Technical Milestone", "Business Milestone"]

  /** `m?.name || ''`. */
  function MilestoneName(m: Option<MilestoneRef>): string {
    if m.Some? then m.value.name else ""
  }

  function ExportRow(c: Capability): seq<string> {
    [c.name, c.workstream, c.workstreamLead.name, c.sme, c.ba, c.status, c.rag,
     MilestoneName(c.technicalMilestone), MilestoneName(c.businessMilestone)]
  }

  function ExportLine(c: Capability): string {
    CsvLine(ExportRow(c))
  }

  /** The exported text: the header line, then one line per capability, joined by newlines. */
  function ExportText(caps: seq<Capability>): string {
    Join([CsvLine(ExportHeaders)] + Seqs.Map(caps, ExportLine), '\n')
  }

  /** `handleExport`: the text of the capabilities the filters currently show. */
  function HandleExport(caps: seq<Capability>, f: Filters): string {
    ExportText(Filtered(caps, f))
  }

  /** The export splits into the header line and one line per shown capability, in store
      order; a capability the filters hide has no line. */
  lemma HandleExportLines(caps: seq<Capability>, f: Filters)
    requires forall c :: c in caps ==> Exportable(c)
    ensures Split(HandleExport(caps, f), '\n') == [CsvLine(ExportHeaders)] + Seqs.Map(Filtered(caps, f), ExportLine)
    ensures Seqs.SubsequenceOf(Filtered(caps, f), caps)
    ensures forall c :: c in Filtered(caps, f) <==> c in caps && Matches(c, f)
  {
    FilteredFacts(caps, f);
    ExportedLines(Filtered(caps, f));
  }

  // ---------------------------------------------------------------- import

  /** The headers an import needs. */
  const RequiredHeaders: seq<string> := ["Name", "Workstream", "Lead", "SME", "BA", "Status", "RAG"]

  /** A cell with its quotes taken out and then trimmed. */
  function CleanCell(s: string): string {
    Trim(RemoveAll(s, '"'))
  }

  /** The cleaned cells of a line. */
  function Cells(line: string): seq<string> {
    Seqs.Map(Split(line, ','), CleanCell)
  }

  /** `xs.indexOf(x)`: the first position holding `x`, or -1. */
  function IndexOf(xs: seq<string>, x: string): (r: int)
    ensures -1 <= r
    ensures r == -1 <==> x !in xs
    ensures 0 <= r ==> r < |xs| && xs[r] == x && forall k :: 0 <= k < r ==> xs[k] != x
  {
    if xs == [] then -1
    else if xs[0] == x then 0
    else
      var r := IndexOf(xs[1..], x);
      if r == -1 then
        assert xs == [xs[0]] + xs[1..];
        -1
      else
        assert xs[r + 1] == xs[1..][r];
        assert forall k :: 0 <= k < r + 1 ==> xs[k] != x by {
          forall k | 0 <= k < r + 1 ensures xs[k] != x {
            if k > 0 { assert xs[k] == xs[1..][k - 1]; }
          }
        }
        r + 1
  }

  /** The first position of a value is where it occurs with no earlier occurrence. */
  lemma IndexOfAt(xs: seq<string>, x: string, i: int)
    requires 0 <= i < |xs| && xs[i] == x
    requires forall k :: 0 <= k < i ==> xs[k] != x
    ensures IndexOf(xs, x) == i
  {
    assert x in xs;
  }

  /** Where the export puts the columns the import looks up, one column at a time. */
  lemma NameColumn()
    ensures IndexOf(ExportHeaders, "Name") == 0
  {
  }

  lemma WorkstreamColumn()
    ensures IndexOf(ExportHeaders, "Workstream") == 1
  {
    var h := ExportHeaders;
    assert h[0] == "Name" && h[1] == "Workstream";
    IndexOfAt(h, "Workstream", 1);
  }

  lemma LeadColumn()
    ensures IndexOf(ExportHeaders, "Lead") == 2
  {
    var h := ExportHeaders;
    assert h[0] == "Name" && h[1] == "Workstream" && h[2] == "Lead";
    IndexOfAt(h, "Lead", 2);
  }

  lemma SmeColumn()
    ensures IndexOf(ExportHeaders, "SME") == 3
  {
    var h := ExportHeaders;
    assert h[0] == "Name" && h[1] == "Workstream" && h[2] == "Lead" && h[3] == "SME";
    IndexOfAt(h, "SME", 3);
  }

  lemma BaColumn()
    ensures IndexOf(ExportHeaders, "BA") == 4
  {
    var h := ExportHeaders;
    assert h[0] == "Name" && h[1] == "Workstream" && h[2] == "Lead" && h[3] == "SME" && h[4] == "BA";
    IndexOfAt(h, "BA", 4);
  }

  lemma StatusColumn()
    ensures IndexOf(ExportHeaders, "Status") == 5
  {
    var h := ExportHeaders;
    assert h[0] == "Name" && h[1] == "Workstream" && h[2] == "Lead" && h[3] == "SME" && h[4] == "BA" && h[5] == "Status";
    IndexOfAt(h, "Status", 5);
  }

  lemma RagColumn()
    ensures IndexOf(ExportHeaders, "RAG") == 6
  {
    var h := ExportHeaders;
    assert h[0] == "Name" && h[1] == "Workstream" && h[2] == "Lead" && h[3] == "SME" && h[4] == "BA" && h[5] == "Status" && h[6] == "RAG";
    IndexOfAt(h, "RAG", 6);
  }

  lemma ExportHeaderPositions()
    ensures IndexOf(ExportHeaders, "Name") == 0 && IndexOf(ExportHeaders, "Workstream") == 1 &&
            IndexOf(ExportHeaders, "Lead") == 2 && IndexOf(ExportHeaders, "SME") == 3 &&
            IndexOf(ExportHeaders, "BA") == 4 && IndexOf(ExportHeaders, "Status") == 5 &&
            IndexOf(ExportHeaders, "RAG") == 6
  {
    NameColumn(); WorkstreamColumn(); LeadColumn(); SmeColumn(); BaColumn(); StatusColumn(); RagColumn();
  }

  /** `values[headers.indexOf(name)] || fallback`: a missing or empty cell gives the fallback. */
  function Cell(values: seq<string>, headers: seq<string>, name: string, fallback: string): string {
    var i := IndexOf(headers, name);
    if 0 <= i < |values| && values[i] != "" then values[i] else fallback
  }

  /** The record built from a row; the store gives it its id. */
  function RowRecord(values: seq<string>, headers: seq<string>): Capability {
    Capability(
      "",
      Cell(values, headers, "Name", ""),
      Cell(values, headers, "Workstream", ""),
      Lead(Cell(values, headers, "Lead", ""), None),
      Cell(values, headers, "SME", ""),
      Cell(values, headers, "BA", ""),
      None, None,
      Cell(values, headers, "Status", "Not Started"),
      Cell(values, headers, "RAG", "Blue"),
      Some(""))
  }

  /** `s` with the entries at `i` and `j` exchanged. */
  function Swapped(s: seq<string>, i: int, j: int): seq<string>
    requires 0 <= i < |s| && 0 <= j < |s|
  {
    s[i := s[j]][j := s[i]]
  }

  /** With distinct headers, exchanging two columns moves a header's position along with it. */
  lemma IndexOfSwapped(headers: seq<string>, i: int, j: int, x: string)
    requires 0 <= i < |headers| && 0 <= j < |headers| && Seqs.Distinct(headers)
    ensures var k := IndexOf(headers, x);
      IndexOf(Swapped(headers, i, j), x) == (if k == i then j else if k == j then i else k)
  {
    var h := Swapped(headers, i, j);
    var k := IndexOf(headers, x);
    assert forall m :: 0 <= m < |h| ==>
      h[m] == headers[if m == i then j else if m == j then i else m];
    if k == -1 {
      assert x !in h;
    } else {
      var k' := if k == i then j else if k == j then i else k;
      IndexOfAt(h, x, k');
    }
  }

  /** A cell looked up by name reads the same value after two columns are exchanged. */
  lemma CellSwapped(values: seq<string>, headers: seq<string>, i: int, j: int, name: string, fallback: string)
    requires |values| == |headers| && 0 <= i < |headers| && 0 <= j < |headers| && Seqs.Distinct(headers)
    ensures Cell(Swapped(values, i, j), Swapped(headers, i, j), name, fallback) == Cell(values, headers, name, fallback)
  {
    IndexOfSwapped(headers, i, j, name);
  }

  /** Cells are found by header name, so the order of the columns does not matter: exchanging two
      columns of a file with distinct headers, in the header line and in a row alike, builds the
      same record. */
  lemma SwapColumns(values: seq<string>, headers: seq<string>, i: int, j: int)
    requires |values| == |headers| && 0 <= i < |headers| && 0 <= j < |headers| && Seqs.Distinct(headers)
    ensures RowRecord(Swapped(values, i, j), Swapped(headers, i, j)) == RowRecord(values, headers)
  {
    CellSwapped(values, headers, i, j, "Name", "");
    CellSwapped(values, headers, i, j, "Workstream", "");
    CellSwapped(values, headers, i, j, "Lead", "");
    CellSwapped(values, headers, i, j, "SME", "");
    CellSwapped(values, headers, i, j, "BA", "");
    CellSwapped(values, headers, i, j, "Status", "Not Started");
    CellSwapped(values, headers, i, j, "RAG", "Blue");
  }

  /** One data line: skipped when blank, when it has fewer than seven values, or when its name
      or workstream is empty. */
  function ParseLine(line: string, headers: seq<string>): Option<Capability>
  {
    var trimmed := Trim(line);
    if trimmed == "" then None
    else
      var values := Cells(trimmed);
      if |values| < |RequiredHeaders| then None
      else
        var c := RowRecord(values, headers);
        if c.name != "" && c.workstream != "" then Some(c) else None
  }

  /** The accepted records of the data lines, in order. */
  function ParseRows(lines: seq<string>, headers: seq<string>): seq<Capability> {
    Seqs.Collect(lines, headers, ParseLine)
  }

  predicate HasRequiredHeaders(headers: seq<string>) {
    forall h :: h in RequiredHeaders ==> h in headers
  }

  const HeaderError := "CSV file must have headers: Name, Workstream, Lead, SME, BA, Status, RAG"

  /** The whole import, stated on the file's text: a header error, or the records to add. */
  function ParseImport(csv: string): (r: Result<seq<Capability>, string>)
    ensures r.Failure? <==> !HasRequiredHeaders(Cells(Split(csv, '\n')[0]))
    ensures r.Success? ==> forall c :: c in r.value ==> c.name != "" && c.workstream != ""
  {
    var lines := Split(csv, '\n');
    var headers := Cells(lines[0]);
    if !HasRequiredHeaders(headers) then Failure(HeaderError)
    else
      ParseRowsAccepted(lines[1..], headers);
      Success(ParseRows(lines[1..], headers))
  }

  lemma ParseRowsAccepted(lines: seq<string>, headers: seq<string>)
    ensures forall c :: c in ParseRows(lines, headers) ==> c.name != "" && c.workstream != ""
  {
    Seqs.CollectFrom(lines, headers, ParseLine);
  }

  /** The records as the store keeps them: the k-th added record gets the k-th fresh id. */
  function Stamped(rows: seq<Capability>, ids: nat -> string): (r: seq<Capability>)
    ensures |r| == |rows|
  {
    seq(|rows|, k requires 0 <= k < |rows| => rows[k].(id := ids(k)))
  }

  lemma ParseRowsStep(lines: seq<string>, headers: seq<string>, i: int)
    requires 1 <= i < |lines|
    ensures ParseRows(lines[1..i + 1], headers) ==
      ParseRows(lines[1..i], headers) +
      (if ParseLine(lines[i], headers).Some? then [ParseLine(lines[i], headers).value] else [])
  {
    assert lines[1..i + 1] == lines[1..i] + [lines[i]];
    Seqs.CollectSnoc(lines[1..i], lines[i], headers, ParseLine);
  }

  lemma StampedAppend(rows: seq<Capability>, parsed: Option<Capability>, ids: nat -> string)
    ensures Stamped(rows + (if parsed.Some? then [parsed.value] else []), ids) ==
      Stamped(rows, ids) + (if parsed.Some? then [parsed.value.(id := ids(|rows|))] else [])
  {
  }

  /** `handleImport` once the file is read: with a header missing nothing is added; otherwise
      every accepted row is added in order and the count reported is the number added. */
  method HandleImport(store: ProjectStore.Store, csv: string, ids: nat -> string) returns (r: Result<nat, string>)
    modifies store`capabilities
    ensures r.Failure? <==> ParseImport(csv).Failure?
    ensures r.Failure? ==> r.error == HeaderError && store.capabilities == old(store.capabilities)
    ensures r.Success? ==>
      r.value == |ParseImport(csv).value| &&
      store.capabilities == old(store.capabilities) + Stamped(ParseImport(csv).value, ids)
  {
    var lines := Split(csv, '\n');
    var headers := Cells(lines[0]);
    if !HasRequiredHeaders(headers) {
      return Failure(HeaderError);
    }
    var importedCount := 0;
    for i := 1 to |lines|
      invariant importedCount == |ParseRows(lines[1..i], headers)|
      invariant store.capabilities == old(store.capabilities) + Stamped(ParseRows(lines[1..i], headers), ids)
    {
      ghost var rows := ParseRows(lines[1..i], headers);
      var parsed := ParseLine(lines[i], headers);
      ParseRowsStep(lines, headers, i);
      StampedAppend(rows, parsed, ids);
      if parsed.Some? {
        store.AddCapability(parsed.value, ids(importedCount));
        importedCount := importedCount + 1;
      }
    }
    assert lines[1..|lines|] == lines[1..];
    assert ParseImport(csv) == Success(ParseRows(lines[1..], headers));
    r := Success(importedCount);
  }

  // ---------------------------------------------------------------- export then import

  /** A field that survives the naive CSV writing and reading: no comma, quote or newline, and
      no white space at either end. */
  predicate Clean(s: string) {
    ',' !in s && '"' !in s && '\n' !in s &&
    (s == [] || (!IsWhitespace(s[0]) && !IsWhitespace(s[|s| - 1])))
  }

  /** What an exported capability comes back as: its seven core fields, the lead without avatar,
      no milestones, empty notes, an empty status or RAG replaced by the import's default. */
  function Reimported(c: Capability): Capability {
    Capability("", c.name, c.workstream, Lead(c.workstreamLead.name, None), c.sme, c.ba, None, None,
               if c.status == "" then "Not Started" else c.status,
               if c.rag == "" then "Blue" else c.rag,
               Some(""))
  }

  predicate Exportable(c: Capability) {
    forall k :: 0 <= k < |ExportRow(c)| ==> Clean(ExportRow(c)[k])
  }

  /** Reading back a line of clean fields gives the fields. */
  lemma CellsOfLine(fields: seq<string>)
    requires |fields| >= 1
    requires forall k :: 0 <= k < |fields| ==> Clean(fields[k])
    ensures Cells(CsvLine(fields)) == fields
  {
    var quoted := Seqs.Map(fields, Quote);
    forall k | 0 <= k < |quoted| ensures ',' !in quoted[k] {
      assert quoted[k] == "\"" + fields[k] + "\"";
    }
    SplitJoin(quoted, ',');
    forall k | 0 <= k < |fields| ensures CleanCell(quoted[k]) == fields[k] {
      UnquoteQuote(fields[k]);
      TrimUnchanged(fields[k]);
    }
  }

  /** An exported line of a capability with a name and a workstream reads back as its core. */
  lemma ParseExportedLine(c: Capability)
    requires Exportable(c) && c.name != "" && c.workstream != ""
    ensures ParseLine(CsvLine(ExportRow(c)), ExportHeaders) == Some(Reimported(c))
  {
    var row := ExportRow(c);
    var line := CsvLine(row);
    CsvLineShape(row);
    CellsOfLine(row);
    assert Trim(line) == line && Cells(line) == row;
    RowRecordOfExport(c);
  }

  /** The cells of an exported row, read under the exported headers, give the capability's core. */
  lemma RowRecordOfExport(c: Capability)
    requires c.name != "" && c.workstream != ""
    ensures RowRecord(ExportRow(c), ExportHeaders) == Reimported(c)
  {
    ExportHeaderPositions();
  }

  lemma ParseExportedRows(caps: seq<Capability>)
    requires forall c :: c in caps ==> Exportable(c) && c.name != "" && c.workstream != ""
    ensures ParseRows(Seqs.Map(caps, ExportLine), ExportHeaders) == Seqs.Map(caps, Reimported)
  {
    var lines, out := Seqs.Map(caps, ExportLine), Seqs.Map(caps, Reimported);
    forall k | 0 <= k < |lines| ensures ParseLine(lines[k], ExportHeaders) == Some(out[k]) {
      assert caps[k] in caps;
      ParseExportedLine(caps[k]);
    }
    Seqs.CollectAll(lines, ExportHeaders, ParseLine, out);
  }

  /** The exported text splits back into its header line and one line per capability. */
  lemma ExportedLines(caps: seq<Capability>)
    requires forall c :: c in caps ==> Exportable(c)
    ensures Split(ExportText(caps), '\n') == [CsvLine(ExportHeaders)] + Seqs.Map(caps, ExportLine)
  {
    var rows := Seqs.Map(caps, ExportLine);
    forall k | 0 <= k < |rows| ensures '\n' !in rows[k] {
      assert caps[k] in caps;
      CsvLineShape(ExportRow(caps[k]));
    }
    CsvLineShape(ExportHeaders);
    SplitJoinHeader(CsvLine(ExportHeaders), rows, '\n');
  }

  /** The exported header line carries every header the import needs. */
  lemma ExportedHeaders()
    ensures Cells(CsvLine(ExportHeaders)) == ExportHeaders
    ensures HasRequiredHeaders(ExportHeaders)
  {
    HeadersClean();
    CellsOfLine(ExportHeaders);
    RequiredExported();
  }

  lemma HeadersClean()
    ensures forall k :: 0 <= k < |ExportHeaders| ==> Clean(ExportHeaders[k])
  {
  }

  lemma RequiredExported()
    ensures HasRequiredHeaders(ExportHeaders)
  {
    assert RequiredHeaders == ExportHeaders[..7];
  }

  /** Exporting capabilities with clean fields, a name and a workstream, and importing the file,
      gives back one record per capability, in order, with its seven core fields. */
  lemma ExportImportRoundTrip(caps: seq<Capability>)
    requires forall c :: c in caps ==> Exportable(c) && c.name != "" && c.workstream != ""
    ensures ParseImport(ExportText(caps)) == Success(Seqs.Map(caps, Reimported))
  {
    var lines := Split(ExportText(caps), '\n');
    ExportedLines(caps);
    ExportedHeaders();
    assert lines[1..] == Seqs.Map(caps, ExportLine);
    ParseExportedRows(caps);
  }
}
