/**
 * The slow tier of the fetch cascade and the cascade itself. Two browser
 * back ends implement this tier with the same extraction logic
 * (services/playwrightService.js and services/puppeteerService.js); they
 * differ only in how a timeout is recognised in an error message, so both
 * are one model parameterised by `Engine`.
 *
 * The rendered page is given as data: the visible text of the body, of
 * each table cell row, list item and pipeline-related element, as the page
 * script reads it after the unwanted elements are removed.
 */
module RenderedFetch {
  import opened Wrappers
  import opened Text
  import opened Seqs
  import ScraperService

  datatype Engine = Playwright | Puppeteer

  // ---------------------------------------------------------------------
  // Section assembly
  // ---------------------------------------------------------------------

  /** A rendered table: for each row, the text of its `td`/`th` cells in order. */
  datatype RenderedTable = RenderedTable(rows: seq<seq<string>>)

  /**
   * What the page script sees: the body text, the tables, the lists (each
   * the texts of its items) and the text of each element whose class or id
   * names a pipeline, product or drug.
   */
  datatype Page = Page(body: string, tables: seq<RenderedTable>, lists: seq<seq<string>>, sections: seq<string>)

  const GeneralHeader := "=== CONTENIDO GENERAL ==="
  const TablesHeader := "\n=== TABLAS ==="
  const ListsHeader := "\n=== LISTAS ==="
  const SectionsHeader := "\n=== SECCIONES DE PIPELINE ==="
  const CellSeparator := " | "

  function TrimAll(cells: seq<string>): (r: seq<string>)
    ensures |r| == |cells|
    ensures forall k :: 0 <= k < |r| ==> r[k] == Trim(cells[k])
  {
    if cells == [] then [] else TrimAll(cells[..|cells| - 1]) + [Trim(cells[|cells| - 1])]
  }

  /** One table row as a line: its trimmed cells joined by the separator. */
  function RowLine(cells: seq<string>): string {
    Join(TrimAll(cells), CellSeparator)
  }

  /** The lines of a run of rows; rows without cells give none. */
  function RowLines(rows: seq<seq<string>>): seq<string> {
    if rows == [] then []
    else
      var last := rows[|rows| - 1];
      RowLines(rows[..|rows| - 1]) + (if |last| > 0 then [RowLine(last)] else [])
  }

  /** The caption line of the table at 1-based position `n`. */
  function TableCaption(n: nat): string {
    "\nTabla " + NatToString(n) + ":"
  }

  /** Each table in order: its caption, then its row lines. */
  function TableLines(tables: seq<RenderedTable>): seq<string> {
    if tables == [] then []
    else
      TableLines(tables[..|tables| - 1]) + [TableCaption(|tables|)] + RowLines(tables[|tables| - 1].rows)
  }

  function ItemLines(items: seq<string>): seq<string> {
    if items == [] then [] else ItemLines(items[..|items| - 1]) + ["- " + Trim(items[|items| - 1])]
  }

  function ListLines(lists: seq<seq<string>>): seq<string> {
    if lists == [] then [] else ListLines(lists[..|lists| - 1]) + ItemLines(lists[|lists| - 1])
  }

  /** The length window a pipeline section's text must fall in to be kept. */
  predicate InSectionWindow(text: string) {
    20 < |text| < 5000
  }

  function SectionLines(sections: seq<string>): seq<string> {
    if sections == [] then []
    else
      var t := Trim(sections[|sections| - 1]);
      SectionLines(sections[..|sections| - 1]) + (if InSectionWindow(t) then [t] else [])
  }

  /** All the lines, in the order the page script pushes them. */
  function PageLines(p: Page): seq<string> {
    [GeneralHeader, p.body]
    + (if |p.tables| > 0 then [TablesHeader] + TableLines(p.tables) else [])
    + (if |p.lists| > 0 then [ListsHeader] + ListLines(p.lists) else [])
    + (if |p.sections| > 0 then [SectionsHeader] + SectionLines(p.sections) else [])
  }

  /** The text the page script returns: its lines joined by newlines. */
  function PageText(p: Page): string {
    Join(PageLines(p), "\n")
  }

  /** The row lines of one table, pushed row by row. */
  method PushRowLines(rows: seq<seq<string>>) returns (lines: seq<string>)
    ensures lines == RowLines(rows)
  {
    lines := [];
    var j := 0;
    while j < |rows|
      invariant 0 <= j <= |rows|
      invariant lines == RowLines(rows[..j])
    {
      assert rows[..j + 1][..j] == rows[..j];
      var cells := rows[j];
      if |cells| > 0 {
        lines := lines + [RowLine(cells)];
      }
      j := j + 1;
    }
    assert rows[..j] == rows;
  }

  /** The lines of the tables section, table by table. */
  method PushTableLines(tables: seq<RenderedTable>) returns (lines: seq<string>)
    ensures lines == TableLines(tables)
  {
    lines := [];
    var i := 0;
    while i < |tables|
      invariant 0 <= i <= |tables|
      invariant lines == TableLines(tables[..i])
    {
      assert tables[..i + 1][..i] == tables[..i];
      var rowLines := PushRowLines(tables[i].rows);
      lines := lines + [TableCaption(i + 1)] + rowLines;
      i := i + 1;
    }
    assert tables[..i] == tables;
  }

  /** The lines of one list, one per item. */
  method PushItemLines(items: seq<string>) returns (lines: seq<string>)
    ensures lines == ItemLines(items)
  {
    lines := [];
    var j := 0;
    while j < |items|
      invariant 0 <= j <= |items|
      invariant lines == ItemLines(items[..j])
    {
      assert items[..j + 1][..j] == items[..j];
      lines := lines + ["- " + Trim(items[j])];
      j := j + 1;
    }
    assert items[..j] == items;
  }

  /** The lines of the lists section, list by list. */
  method PushListLines(lists: seq<seq<string>>) returns (lines: seq<string>)
    ensures lines == ListLines(lists)
  {
    lines := [];
    var i := 0;
    while i < |lists|
      invariant 0 <= i <= |lists|
      invariant lines == ListLines(lists[..i])
    {
      assert lists[..i + 1][..i] == lists[..i];
      var itemLines := PushItemLines(lists[i]);
      lines := lines + itemLines;
      i := i + 1;
    }
    assert lists[..i] == lists;
  }

  /** The lines of the pipeline sections, keeping texts inside the length window. */
  method PushSectionLines(sections: seq<string>) returns (lines: seq<string>)
    ensures lines == SectionLines(sections)
  {
    lines := [];
    var i := 0;
    while i < |sections|
      invariant 0 <= i <= |sections|
      invariant lines == SectionLines(sections[..i])
    {
      assert sections[..i + 1][..i] == sections[..i];
      var text := Trim(sections[i]);
      if |text| > 20 && |text| < 5000 {
        lines := lines + [text];
      }
      i := i + 1;
    }
    assert sections[..i] == sections;
  }

  /** The page script: pushes the lines section by section, then joins them. */
  method ExtractContent(p: Page) returns (content: string)
    ensures content == PageText(p)
  {
    var results: seq<string> := [GeneralHeader, p.body];
    if |p.tables| > 0 {
      var lines := PushTableLines(p.tables);
      results := results + ([TablesHeader] + lines);
    }
    ghost var withTables := results;
    if |p.lists| > 0 {
      var lines := PushListLines(p.lists);
      results := results + ([ListsHeader] + lines);
    }
    assert results == withTables + (if |p.lists| > 0 then [ListsHeader] + ListLines(p.lists) else []);
    ghost var withLists := results;
    if |p.sections| > 0 {
      var lines := PushSectionLines(p.sections);
      results := results + ([SectionsHeader] + lines);
    }
    assert results == withLists + (if |p.sections| > 0 then [SectionsHeader] + SectionLines(p.sections) else []);
    assert results == PageLines(p);
    content := Join(results, "\n");
  }

  /** Joined lines begin with the first line followed by the separator. */
  lemma JoinStartsWith(lines: seq<string>, sep: string)
    requires |lines| >= 2
    ensures StartsWith(Join(lines, sep), lines[0] + sep + lines[1])
  {
    var rest := Join(lines[1..], sep);
    if |lines| == 2 {
      assert rest == lines[1];
    } else {
      assert rest == lines[1] + sep + Join(lines[2..], sep);
    }
    assert Join(lines, sep) == lines[0] + sep + rest;
    assert (lines[0] + sep + rest)[..|lines[0] + sep + lines[1]|] == lines[0] + sep + lines[1];
  }

  /** The text always opens with the general header and the body text. */
  lemma PageTextOpensWithBody(p: Page)
    ensures StartsWith(PageText(p), GeneralHeader + "\n" + p.body)
  {
    JoinStartsWith(PageLines(p), "\n");
  }

  /**
   * A section starts right after the body when it is the first one with
   * elements, and a page with no tables, lists or sections gives only the
   * general header and the body.
   */
  lemma SectionsOnlyWhenPresent(p: Page)
    ensures |p.tables| > 0 ==> PageLines(p)[2] == TablesHeader
    ensures |p.tables| == 0 && |p.lists| > 0 ==> PageLines(p)[2] == ListsHeader
    ensures |p.tables| == 0 && |p.lists| == 0 && |p.sections| > 0 ==> PageLines(p)[2] == SectionsHeader
    ensures |p.tables| == 0 && |p.lists| == 0 && |p.sections| == 0 ==> PageText(p) == GeneralHeader + "\n" + p.body
  {
    if |p.tables| == 0 && |p.lists| == 0 && |p.sections| == 0 {
      var lines := PageLines(p);
      assert lines == [GeneralHeader, p.body];
      assert lines[1..] == [p.body];
      assert Join(lines[1..], "\n") == p.body;
      assert Join(lines, "\n") == GeneralHeader + "\n" + Join(lines[1..], "\n");
    }
  }

  /** Rows without cells give no line; every other row gives exactly one, in order. */
  lemma {:induction false} RowLinesSkipEmpty(rows: seq<seq<string>>)
    ensures |RowLines(rows)| == |NonEmptyRows(rows)|
    ensures forall k :: 0 <= k < |RowLines(rows)| ==> RowLines(rows)[k] == RowLine(NonEmptyRows(rows)[k])
  {
    if rows != [] {
      RowLinesSkipEmpty(rows[..|rows| - 1]);
    }
  }

  /** The rows that have at least one cell, in order. */
  function NonEmptyRows(rows: seq<seq<string>>): (r: seq<seq<string>>)
    ensures forall k :: 0 <= k < |r| ==> |r[k]| > 0
  {
    if rows == [] then []
    else
      var last := rows[|rows| - 1];
      NonEmptyRows(rows[..|rows| - 1]) + (if |last| > 0 then [last] else [])
  }

  /** A row of one cell is that cell's trimmed text, with no separator. */
  lemma RowLineOfOneCell(cell: string)
    ensures RowLine([cell]) == Trim(cell)
  {
  }

  /** Every kept section line has a trimmed length strictly between 20 and 5000. */
  lemma {:induction false} SectionLinesInWindow(sections: seq<string>)
    ensures forall k :: 0 <= k < |SectionLines(sections)| ==> InSectionWindow(SectionLines(sections)[k])
  {
    if sections != [] {
      var p := sections[..|sections| - 1];
      SectionLinesInWindow(p);
      var a := SectionLines(p);
      var t := Trim(sections[|sections| - 1]);
      var tail := if InSectionWindow(t) then [t] else [];
      assert SectionLines(sections) == a + tail;
      assert forall k :: |a| <= k < |a + tail| ==> (a + tail)[k] == t;
    }
  }

  /** Every section whose trimmed text lies in that window is kept. */
  lemma {:induction false} SectionsInWindowKept(sections: seq<string>)
    ensures forall i :: 0 <= i < |sections| && InSectionWindow(Trim(sections[i])) ==> Trim(sections[i]) in SectionLines(sections)
  {
    if sections != [] {
      var p := sections[..|sections| - 1];
      SectionsInWindowKept(p);
      var a := SectionLines(p);
      var t := Trim(sections[|sections| - 1]);
      var tail := if InSectionWindow(t) then [t] else [];
      assert SectionLines(sections) == a + tail;
      assert forall i :: 0 <= i < |p| ==> sections[i] == p[i];
      assert InSectionWindow(t) ==> t in a + tail;
    }
  }

  // ---------------------------------------------------------------------
  // Rendering, its errors and the cascade
  // ---------------------------------------------------------------------

  /** What reaches the error handler of the rendering tier. */
  datatype RenderCause = Thrown(message: string) | RenderedTooShort(length: nat)

  /** The error the rendering tier raises. */
  datatype RenderError = RenderTimeout | NameNotResolved | RenderConnectionRefused | RenderFailed(engine: Engine, cause: RenderCause)

  /** How each back end recognises a timeout: Playwright in either capitalisation, Puppeteer in lower case only. */
  predicate MentionsTimeout(engine: Engine, message: string) {
    match engine
    case Playwright => Contains(message, "Timeout") || Contains(message, "timeout")
    case Puppeteer => Contains(message, "timeout")
  }

  /** The error handler of the rendering tier: timeout, then DNS, then refusal, else the generic error. */
  function ClassifyRender(engine: Engine, cause: RenderCause): RenderError {
    match cause
    case RenderedTooShort(_) => RenderFailed(engine, cause)
    case Thrown(m) =>
      if MentionsTimeout(engine, m) then RenderTimeout
      else if Contains(m, "net::ERR_NAME_NOT_RESOLVED") then NameNotResolved
      else if Contains(m, "net::ERR_CONNECTION_REFUSED") then RenderConnectionRefused
      else RenderFailed(engine, cause)
  }

  /** The two back ends classify alike unless the message has a capitalised `Timeout`. */
  lemma EnginesAgreeWithoutCapitalTimeout(cause: RenderCause)
    requires cause.Thrown? ==> !Contains(cause.message, "Timeout") || Contains(cause.message, "timeout")
    ensures ClassifyRender(Playwright, cause).RenderFailed? <==> ClassifyRender(Puppeteer, cause).RenderFailed?
    ensures !ClassifyRender(Playwright, cause).RenderFailed? ==> ClassifyRender(Playwright, cause) == ClassifyRender(Puppeteer, cause)
  {
  }

  /** A timeout wins over every other marker in the message. */
  lemma TimeoutFirst(engine: Engine, m: string)
    requires MentionsTimeout(engine, m)
    ensures ClassifyRender(engine, Thrown(m)) == RenderTimeout
  {
  }

  /** A message with a capitalised `Timeout` only is a timeout for Playwright and not for Puppeteer. */
  lemma CapitalTimeoutSplitsEngines()
    ensures ClassifyRender(Playwright, Thrown("Timeout")) == RenderTimeout
    ensures ClassifyRender(Puppeteer, Thrown("Timeout")) == RenderFailed(Puppeteer, Thrown("Timeout"))
  {
    ContainsSelf("Timeout");
    assert !Contains("Timeout", "timeout");
    assert !Contains("Timeout", "net::ERR_NAME_NOT_RESOLVED");
    assert !Contains("Timeout", "net::ERR_CONNECTION_REFUSED");
  }

  /** What loading the page gives: the page, or the message of the error that stopped it. */
  datatype LoadOutcome = Loaded(page: Page) | LoadFailed(message: string)

  /** The rendering tier's answer for a load outcome. */
  function RenderResult(engine: Engine, outcome: LoadOutcome): (r: Result<string, RenderError>)
    ensures r.Ok? ==> |r.value| >= 100
  {
    match outcome
    case LoadFailed(m) => Err(ClassifyRender(engine, Thrown(m)))
    case Loaded(page) =>
      var text := PageText(page);
      if text == [] || |text| < 100 then Err(ClassifyRender(engine, RenderedTooShort(|text|)))
      else Ok(text)
  }

  /** `scrapeWithPlaywright` / `scrapeWithPuppeteer`. */
  method ScrapeRendered(engine: Engine, outcome: LoadOutcome) returns (r: Result<string, RenderError>)
    ensures r == RenderResult(engine, outcome)
  {
    match outcome
    case LoadFailed(m) =>
      r := Err(ClassifyRender(engine, Thrown(m)));
    case Loaded(page) =>
      var fullContent := ExtractContent(page);
      if fullContent == [] || |fullContent| < 100 {
        r := Err(ClassifyRender(engine, RenderedTooShort(|fullContent|)));
      } else {
        r := Ok(fullContent);
      }
  }

  /** Text too short after rendering is always the generic error, never a timeout or a network error. */
  lemma ShortRenderIsGeneric(engine: Engine, page: Page)
    requires |PageText(page)| < 100
    ensures RenderResult(engine, Loaded(page)) == Err(RenderFailed(engine, RenderedTooShort(|PageText(page)|)))
  {
  }

  /** Fast-tier content longer than this is used without rendering. */
  const EscalationThreshold := 2000

  /**
   * `smartScrape`: the fast tier's text when it is longer than 2000
   * characters; otherwise, or when the fast tier fails, the rendering
   * tier's answer. `renderCalls` counts how often the rendering tier ran.
   */
  method SmartScrape(engine: Engine, fast: Result<string, ScraperService.ScrapeError>, slow: LoadOutcome)
    returns (r: Result<string, RenderError>, renderCalls: nat)
    ensures fast.Ok? && |fast.value| > EscalationThreshold ==> r == Ok(fast.value) && renderCalls == 0
    ensures !(fast.Ok? && |fast.value| > EscalationThreshold) ==> r == RenderResult(engine, slow) && renderCalls == 1
  {
    renderCalls := 0;
    if fast.Ok? {
      var content := fast.value;
      if |content| > EscalationThreshold {
        return Ok(content), renderCalls;
      }
    }
    r := ScrapeRendered(engine, slow);
    renderCalls := renderCalls + 1;
  }

  // ---------------------------------------------------------------------
  // Pipeline tables
  // ---------------------------------------------------------------------

  /** A table as the extraction script reads it: its `th` texts and, per `tbody` row, its `td` texts. */
  datatype TableSource = TableSource(headerCells: seq<string>, bodyRows: seq<seq<string>>)

  /** A row as a record from header to cell text. */
  type Record = map<string, string>

  const HeaderKeywords: seq<string> :=
    ["drug", "molecule", "compound", "product", "phase", "indication", "therapeutic"]

  /** The header names: every `th` text trimmed and lower-cased, in order. */
  function Headers(t: TableSource): (h: seq<string>)
    ensures |h| == |t.headerCells|
    ensures forall k :: 0 <= k < |h| ==> h[k] == Lower(Trim(t.headerCells[k]))
  {
    var trimmed := TrimAll(t.headerCells);
    seq(|trimmed|, k requires 0 <= k < |trimmed| => Lower(trimmed[k]))
  }

  /** Some header names a drug, molecule, compound, product, phase, indication or therapeutic area. */
  predicate IsPipelineTable(headers: seq<string>) {
    exists i, k :: 0 <= i < |headers| && 0 <= k < |HeaderKeywords| && Contains(headers[i], HeaderKeywords[k])
  }

  /**
   * The record of the first `n` headers: each header whose cell exists and
   * is not empty maps to that cell; a repeated header keeps its last cell.
   */
  function RecordUpTo(headers: seq<string>, cells: seq<string>, n: nat): Record
    requires n <= |headers|
  {
    if n == 0 then map[]
    else
      var r := RecordUpTo(headers, cells, n - 1);
      if n - 1 < |cells| && cells[n - 1] != "" then r[headers[n - 1] := cells[n - 1]] else r
  }

  function RowRecord(headers: seq<string>, cells: seq<string>): Record {
    RecordUpTo(headers, cells, |headers|)
  }

  /**
   * Every key is a header whose cell at the same position is non-empty and
   * is the value, and every header with a non-empty cell is a key; cells
   * beyond the headers are dropped.
   */
  lemma {:induction false} RecordShape(headers: seq<string>, cells: seq<string>, n: nat)
    requires n <= |headers|
    ensures forall key :: key in RecordUpTo(headers, cells, n) ==>
      exists i :: 0 <= i < n && i < |cells| && headers[i] == key && cells[i] != "" && RecordUpTo(headers, cells, n)[key] == cells[i]
    ensures forall i :: 0 <= i < n && i < |cells| && cells[i] != "" ==> headers[i] in RecordUpTo(headers, cells, n)
  {
    if n > 0 {
      RecordShape(headers, cells, n - 1);
    }
  }

  /** With distinct headers, each non-empty cell is found under its own header. */
  lemma {:induction false} RecordOfDistinctHeaders(headers: seq<string>, cells: seq<string>, n: nat, i: nat)
    requires n <= |headers| && Distinct(headers)
    requires i < n && i < |cells| && cells[i] != ""
    ensures headers[i] in RecordUpTo(headers, cells, n) && RecordUpTo(headers, cells, n)[headers[i]] == cells[i]
  {
    if i < n - 1 {
      RecordOfDistinctHeaders(headers, cells, n - 1, i);
    }
  }

  /** The records of a run of rows; rows without cells give none. */
  function RowRecords(headers: seq<string>, rows: seq<seq<string>>): seq<Record> {
    if rows == [] then []
    else
      var cells := TrimAll(rows[|rows| - 1]);
      RowRecords(headers, rows[..|rows| - 1]) + (if |cells| > 0 then [RowRecord(headers, cells)] else [])
  }

  /** The records of all pipeline tables, table by table, row by row. */
  function PipelineRecords(tables: seq<TableSource>): seq<Record> {
    if tables == [] then []
    else
      var t := tables[|tables| - 1];
      var headers := Headers(t);
      PipelineRecords(tables[..|tables| - 1]) + (if IsPipelineTable(headers) then RowRecords(headers, t.bodyRows) else [])
  }

  /** Tables whose headers name no pipeline keyword contribute nothing. */
  lemma NonPipelineTableIgnored(tables: seq<TableSource>, t: TableSource)
    requires !IsPipelineTable(Headers(t))
    ensures PipelineRecords(tables + [t]) == PipelineRecords(tables)
  {
    assert (tables + [t])[..|tables|] == tables;
  }

  /** Each body row with at least one cell gives one record. */
  lemma {:induction false} OneRecordPerNonEmptyRow(headers: seq<string>, rows: seq<seq<string>>)
    ensures |RowRecords(headers, rows)| == |NonEmptyRows(rows)|
  {
    if rows != [] {
      OneRecordPerNonEmptyRow(headers, rows[..|rows| - 1]);
    }
  }

  /** Fills one row's record key by key, header by header. */
  method FillRecord(headers: seq<string>, cells: seq<string>) returns (rowData: Record)
    ensures rowData == RowRecord(headers, cells)
  {
    rowData := map[];
    var i := 0;
    while i < |headers|
      invariant 0 <= i <= |headers|
      invariant rowData == RecordUpTo(headers, cells, i)
    {
      if i < |cells| && cells[i] != "" {
        rowData := rowData[headers[i] := cells[i]];
      }
      i := i + 1;
    }
  }

  /** The records of one pipeline table, row by row. */
  method PushRowRecords(headers: seq<string>, rows: seq<seq<string>>) returns (records: seq<Record>)
    ensures records == RowRecords(headers, rows)
  {
    records := [];
    var j := 0;
    while j < |rows|
      invariant 0 <= j <= |rows|
      invariant records == RowRecords(headers, rows[..j])
    {
      assert rows[..j + 1][..j] == rows[..j];
      var cells := TrimAll(rows[j]);
      if |cells| > 0 {
        var rowData := FillRecord(headers, cells);
        records := records + [rowData];
      }
      j := j + 1;
    }
    assert rows[..j] == rows;
  }

  /** The extraction script: walks the tables and keeps the rows of the pipeline tables. */
  method ExtractPipelineTables(tables: seq<TableSource>) returns (results: seq<Record>)
    ensures results == PipelineRecords(tables)
  {
    results := [];
    var t := 0;
    while t < |tables|
      invariant 0 <= t <= |tables|
      invariant results == PipelineRecords(tables[..t])
    {
      assert tables[..t + 1][..t] == tables[..t];
      var headers := Headers(tables[t]);
      if IsPipelineTable(headers) {
        var records := PushRowRecords(headers, tables[t].bodyRows);
        results := results + records;
      }
      t := t + 1;
    }
    assert tables[..t] == tables;
  }
}
