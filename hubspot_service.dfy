/**
 * The CRM side of services/hubspotService.js: which companies are due for
 * scraping, the properties written back after a scrape, and how each
 * extracted medication becomes a row update or a new row. The REST calls
 * are not modelled; their answers are inputs, and the writes are returned.
 */
module HubSpotService {
  import opened Wrappers
  import opened Text
  import opened Seqs
  import opened OpenAIService

  // ---------------------------------------------------------------------
  // Companies due for scraping
  // ---------------------------------------------------------------------

  const ChunkSize := 100

  /** A company as the batch read returns it; an absent or null property reads as "". */
  datatype RawCompany = RawCompany(id: string, name: string, lastPipelineScrape: string)

  /** A company as `getCompaniesToScrape` returns it. */
  datatype Company = Company(id: string, name: string, lastUpdated: Option<string>)

  /** The ids split into consecutive batches of at most 100, as the `for` loop with `i += chunkSize` takes them. */
  function Chunks(ids: seq<string>): (r: seq<seq<string>>)
    ensures forall k :: 0 <= k < |r| ==> 1 <= |r[k]| <= ChunkSize
    decreases |ids|
  {
    if ids == [] then []
    else if |ids| <= ChunkSize then [ids]
    else [ids[..ChunkSize]] + Chunks(ids[ChunkSize..])
  }

  function Flatten<T>(xss: seq<seq<T>>): seq<T> {
    if xss == [] then [] else xss[0] + Flatten(xss[1..])
  }

  /** The batches put back together are the ids, in order. */
  lemma {:induction false} ChunksFlatten(ids: seq<string>)
    ensures Flatten(Chunks(ids)) == ids
    decreases |ids|
  {
    if |ids| > ChunkSize {
      ChunksFlatten(ids[ChunkSize..]);
      assert ids == ids[..ChunkSize] + ids[ChunkSize..];
    }
  }

  /** There are as few batches as 100 per batch allows. */
  lemma {:induction false} ChunksCount(ids: seq<string>)
    ensures |Chunks(ids)| == (|ids| + ChunkSize - 1) / ChunkSize
    decreases |ids|
  {
    if |ids| > ChunkSize {
      ChunksCount(ids[ChunkSize..]);
    }
  }

  /** `.filter(c => c.properties?.name).map(...)`: nameless records dropped, a missing date as null. */
  function Named(raw: seq<RawCompany>): (r: seq<Company>)
    ensures |r| <= |raw|
    ensures forall k :: 0 <= k < |r| ==> r[k].name != ""
    ensures forall k :: 0 <= k < |r| ==> r[k].lastUpdated != Some("")
  {
    if raw == [] then []
    else
      var c := raw[0];
      (if c.name != "" then [Company(c.id, c.name, if c.lastPipelineScrape == "" then None else Some(c.lastPipelineScrape))] else [])
      + Named(raw[1..])
  }

  /** Each named record is kept, so the count drops by the nameless ones only. */
  lemma {:induction false} NamedKeepsNamed(raw: seq<RawCompany>)
    ensures |Named(raw)| == |raw| - CountNameless(raw)
  {
    if raw != [] {
      NamedKeepsNamed(raw[1..]);
    }
  }

  function CountNameless(raw: seq<RawCompany>): nat {
    if raw == [] then 0 else (if raw[0].name == "" then 1 else 0) + CountNameless(raw[1..])
  }

  /** Reading the batches in order; the first failing read is the error. */
  function ReadAll(chunks: seq<seq<string>>, readBatch: seq<string> -> Result<seq<RawCompany>, string>): Result<seq<Company>, string> {
    if chunks == [] then Ok([])
    else match readBatch(chunks[0])
      case Err(e) => Err(e)
      case Ok(raw) =>
        match ReadAll(chunks[1..], readBatch)
        case Err(e) => Err(e)
        case Ok(rest) => Ok(Named(raw) + rest)
  }

  function Prepend(front: seq<Company>, r: Result<seq<Company>, string>): Result<seq<Company>, string> {
    match r
    case Err(e) => Err(e)
    case Ok(cs) => Ok(front + cs)
  }

  /**
   * Whether a company is due: never scraped, or last scraped before the
   * threshold. `parseDate` is `new Date(s)`, `None` for an invalid date,
   * whose comparison is false.
   */
  predicate NeedsScraping(c: Company, parseDate: string -> Option<int>, threshold: int) {
    match c.lastUpdated
    case None => true
    case Some(s) => parseDate(s).Some? && parseDate(s).value < threshold
  }

  /** `allCompanies.filter(...)` with the staleness test. */
  function KeepStale(cs: seq<Company>, parseDate: string -> Option<int>, threshold: int): (r: seq<Company>)
    ensures forall k :: 0 <= k < |r| ==> r[k] in cs && NeedsScraping(r[k], parseDate, threshold)
    ensures forall k :: 0 <= k < |cs| && NeedsScraping(cs[k], parseDate, threshold) ==> cs[k] in r
  {
    if cs == [] then []
    else (if NeedsScraping(cs[0], parseDate, threshold) then [cs[0]] else []) + KeepStale(cs[1..], parseDate, threshold)
  }

  /** A company never scraped is always due; one with an unreadable date never is. */
  lemma StalenessEdges(c: Company, parseDate: string -> Option<int>, threshold: int)
    ensures c.lastUpdated.None? ==> NeedsScraping(c, parseDate, threshold)
    ensures c.lastUpdated.Some? && parseDate(c.lastUpdated.value).None? ==> !NeedsScraping(c, parseDate, threshold)
  {
  }

  /** What `getCompaniesToScrape` returns: the due companies of all batches, or the first error. */
  function CompaniesToScrape(segment: Result<seq<string>, string>, readBatch: seq<string> -> Result<seq<RawCompany>, string>,
                             parseDate: string -> Option<int>, threshold: int): Result<seq<Company>, string>
  {
    match segment
    case Err(e) => Err(e)
    case Ok(ids) =>
      if ids == [] then Ok([])
      else match ReadAll(Chunks(ids), readBatch)
        case Err(e) => Err(e)
        case Ok(all) => Ok(KeepStale(all, parseDate, threshold))
  }

  lemma PrependAssoc(a: seq<Company>, b: seq<Company>, r: Result<seq<Company>, string>)
    ensures Prepend(a, Prepend(b, r)) == Prepend(a + b, r)
  {
    if r.Ok? {
      assert a + (b + r.value) == (a + b) + r.value;
    }
  }

  /** `getCompaniesToScrape`: the membership ids (or the error of that call), read 100 at a time. */
  method GetCompaniesToScrape(segment: Result<seq<string>, string>, readBatch: seq<string> -> Result<seq<RawCompany>, string>,
                              parseDate: string -> Option<int>, threshold: int) returns (r: Result<seq<Company>, string>)
    ensures r == CompaniesToScrape(segment, readBatch, parseDate, threshold)
  {
    if segment.Err? {
      return Err(segment.error);
    }
    var companyIds := segment.value;
    if |companyIds| == 0 {
      return Ok([]);
    }
    var allCompanies: seq<Company> := [];
    var i := 0;
    assert companyIds[0..] == companyIds;
    match ReadAll(Chunks(companyIds), readBatch) {
      case Ok(cs) => assert [] + cs == cs;
      case Err(_) =>
    }
    while i < |companyIds|
      invariant 0 <= i
      invariant ReadAll(Chunks(companyIds), readBatch)
        == Prepend(allCompanies, ReadAll(Chunks(companyIds[if i < |companyIds| then i else |companyIds|..]), readBatch))
      decreases |companyIds| - i
    {
      var rest := companyIds[i..];
      var end := if i + ChunkSize < |companyIds| then i + ChunkSize else |companyIds|;
      var chunk := companyIds[i..end];
      assert Chunks(rest)[0] == chunk && Chunks(rest)[1..] == Chunks(companyIds[end..]);
      match readBatch(chunk) {
        case Err(e) =>
          return Err(e);
        case Ok(raw) =>
          PrependAssoc(allCompanies, Named(raw), ReadAll(Chunks(companyIds[end..]), readBatch));
          allCompanies := allCompanies + Named(raw);
      }
      i := i + ChunkSize;
      assert (if i < |companyIds| then i else |companyIds|) == end;
    }
    assert companyIds[|companyIds|..] == [];
    assert allCompanies + [] == allCompanies;
    r := Ok(KeepStale(allCompanies, parseDate, threshold));
  }

  // ---------------------------------------------------------------------
  // After a scrape
  // ---------------------------------------------------------------------

  /** `new Date().toISOString().split('T')[0]`, given the ISO text of the clock. */
  function DatePart(isoNow: string): string {
    Split(isoNow, 'T')[0]
  }

  /** On an ISO timestamp the date part is the `YYYY-MM-DD` text before the `T`. */
  lemma DatePartOfIso(date: string, time: string)
    requires 'T' !in date
    ensures DatePart(date + ['T'] + time) == date
  {
    var s := date + ['T'] + time;
    assert s[|date|] == 'T';
    assert 'T' in s;
    assert s[..|date|] == date;
    assert IndexOf(s, 'T') == |date|;
  }

  /** The two properties `updateCompanyLastScrape` writes. */
  datatype LastScrape = LastScrape(lastPipelineScrape: string, medicationsFoundLastScrape: string)

  function LastScrapeProperties(isoNow: string, medicationsFound: bool): (p: LastScrape)
    ensures p.medicationsFoundLastScrape == "Yes" || p.medicationsFoundLastScrape == "No"
    ensures p.medicationsFoundLastScrape == "Yes" <==> medicationsFound
  {
    LastScrape(DatePart(isoNow), if medicationsFound then "Yes" else "No")
  }

  // ---------------------------------------------------------------------
  // Saving medications
  // ---------------------------------------------------------------------

  /** A row of the results table; `molecula` is absent when the row has no such value. */
  datatype Row = Row(id: string, molecula: Option<string>)

  predicate RowNamed(row: Row, name: string) {
    row.molecula.Some? && Lower(row.molecula.value) == Lower(name)
  }

  /** `findExistingMedication`: the first row whose `molecula` equals the name ignoring case; null when listing fails. */
  function FindExisting(rows: Result<seq<Row>, string>, name: string): (r: Option<Row>)
    ensures r.Some? ==> rows.Ok? && r.value in rows.value && RowNamed(r.value, name)
  {
    match rows
    case Err(_) => None
    case Ok(rs) =>
      match FindFirst(rs, (row: Row) => RowNamed(row, name))
      case None => None
      case Some(i) => Some(rs[i])
  }

  /** The first matching row wins, and a listing failure finds nothing. */
  lemma FindExistingIsFirstMatch(rows: Result<seq<Row>, string>, name: string)
    ensures rows.Err? ==> FindExisting(rows, name) == None
    ensures rows.Ok? ==>
      (FindExisting(rows, name).None? <==> forall k :: 0 <= k < |rows.value| ==> !RowNamed(rows.value[k], name))
    ensures rows.Ok? && FindExisting(rows, name).Some? ==>
      exists i :: 0 <= i < |rows.value| && rows.value[i] == FindExisting(rows, name).value
        && forall j :: 0 <= j < i ==> !RowNamed(rows.value[j], name)
  {
    if rows.Ok? {
      var p := (row: Row) => RowNamed(row, name);
      var f := FindFirst(rows.value, p);
      if f.Some? {
        assert rows.value[f.value] == FindExisting(rows, name).value;
      }
    }
  }

  /** The write `saveMedication` makes. */
  datatype Write =
    | PatchPhase(rowId: string, faseCofepris: string)
    | CreateRow(molecula: string, areaTerapeutica: string, faseCofepris: string, empresa: string)

  /** The upsert decision: an existing row gets only its phase, otherwise a row with the four trimmed fields. */
  function SaveAction(med: Medication, rows: Result<seq<Row>, string>): Write {
    var moleculeName := Trim(med.product.molecula);
    match FindExisting(rows, moleculeName)
    case Some(existing) => PatchPhase(existing.id, Trim(med.product.faseCofepris))
    case None => CreateRow(moleculeName, Trim(med.product.areaTerapeutica), Trim(med.product.faseCofepris), Trim(med.empresa))
  }

  /** A matching row gets its phase patched and nothing else; otherwise all four fields are written, trimmed. */
  lemma SaveActionSpec(med: Medication, rows: Result<seq<Row>, string>)
    ensures var w := SaveAction(med, rows);
      && (w.PatchPhase? <==> FindExisting(rows, Trim(med.product.molecula)).Some?)
      && (w.PatchPhase? ==> RowNamed(FindExisting(rows, Trim(med.product.molecula)).value, Trim(med.product.molecula))
                            && w.rowId == FindExisting(rows, Trim(med.product.molecula)).value.id)
      && w.faseCofepris == Trim(med.product.faseCofepris)
      && (w.CreateRow? ==> w == CreateRow(Trim(med.product.molecula), Trim(med.product.areaTerapeutica),
                                          Trim(med.product.faseCofepris), Trim(med.empresa)))
  {
  }

  /** When the table cannot be listed every medication is created anew. */
  lemma ListingFailureCreates(med: Medication, e: string)
    ensures SaveAction(med, Err(e)).CreateRow?
  {
  }

  /** An existing row is matched on the trimmed name, ignoring case. */
  lemma ExistingRowPatched(med: Medication, rows: seq<Row>, i: nat)
    requires i < |rows| && RowNamed(rows[i], Trim(med.product.molecula))
    requires forall j :: 0 <= j < i ==> !RowNamed(rows[j], Trim(med.product.molecula))
    ensures SaveAction(med, Ok(rows)) == PatchPhase(rows[i].id, Trim(med.product.faseCofepris))
  {
    FindFirstIsFirst(rows, (row: Row) => RowNamed(row, Trim(med.product.molecula)), i);
  }

  /** The upsert decision of each medication against the same listing. */
  function Saver(rows: Result<seq<Row>, string>): Medication -> Write {
    (m: Medication) => SaveAction(m, rows)
  }

  /** How many writes were accepted. */
  function Accepted(writes: seq<Write>, accepted: Write -> bool): (n: nat)
    ensures n <= |writes|
  {
    if writes == [] then 0
    else Accepted(writes[..|writes| - 1], accepted) + (if accepted(writes[|writes| - 1]) then 1 else 0)
  }

  lemma AcceptedSnoc(writes: seq<Write>, w: Write, accepted: Write -> bool)
    ensures Accepted(writes + [w], accepted) == Accepted(writes, accepted) + (if accepted(w) then 1 else 0)
  {
    assert (writes + [w])[..|writes|] == writes;
  }

  /**
   * `saveMedications`: one write per medication, in order, counting the
   * accepted ones as saved and the rest as failed. `rows` is the listing
   * each lookup sees; `accepted` says whether the API took a write.
   */
  method SaveMedications(medications: seq<Medication>, rows: Result<seq<Row>, string>, accepted: Write -> bool)
    returns (success: nat, failed: nat, writes: seq<Write>)
    ensures writes == Map(Saver(rows), medications)
    ensures success == Accepted(writes, accepted)
    ensures success + failed == |medications|
  {
    success, failed, writes := 0, 0, [];
    var i := 0;
    while i < |medications|
      invariant 0 <= i <= |medications|
      invariant writes == Map(Saver(rows), medications[..i])
      invariant success == Accepted(writes, accepted)
      invariant success + failed == i
    {
      var w := Saver(rows)(medications[i]);
      assert medications[..i + 1][..i] == medications[..i];
      AcceptedSnoc(writes, w, accepted);
      writes := writes + [w];
      if accepted(w) {
        success := success + 1;
      } else {
        failed := failed + 1;
      }
      i := i + 1;
    }
    assert medications[..i] == medications;
  }
}
