/**
 * The batch run of scripts/scrape.js: for every company due for a scrape,
 * try its candidate links until five have given medications, save and
 * announce what was found, and stamp the company as scraped. The services
 * it calls are parameters; what it asks of them is returned as a trace.
 */
module ScrapeScript {
  import opened Wrappers
  import opened Seqs
  import opened OpenAIService
  import opened HubSpotService

  const MaxSuccessful := 5

  /** Content shorter than this is not sent for extraction. */
  const MinContentLength := 100

  /** The calls the script makes to other services, in order. */
  datatype Effect =
    | Fetch(link: string)
    | Extract(link: string)
    | Save(medications: seq<Medication>)
    | Publish
    | CreateTasks(medications: seq<Medication>)
    | MarkScraped(companyId: string, medicationsFound: bool)

  /** The end of the run: normal completion, or the fatal exit when the companies cannot be read. */
  datatype Outcome = Completed | FatalError(message: string)

  /** `smartScrape(link, scrapeWebsite)`: the page text, or the message of what it threw. */
  type Fetcher = string -> Result<string, string>

  /** `extractPipelineData(content, link)`: the data, or the message of what it threw. */
  type Extractor = (string, string) -> Result<PipelineData, string>

  /** `{ ...med, empresa: company.name }`. */
  function Tagger(empresa: string): Product -> Medication {
    (p: Product) => Medication(p, empresa)
  }

  /** The medications one link contributes: none unless the extraction gave a non-empty `productos`. */
  function LinkYield(companyName: string, link: string, fetch: Fetcher, extract: Extractor): seq<Medication> {
    match fetch(link)
    case Err(_) => []
    case Ok(content) =>
      if |content| < MinContentLength then []
      else match extract(content, link)
        case Err(_) => []
        case Ok(data) =>
          if data.productos.Some? && |data.productos.value| > 0 then Map(Tagger(companyName), data.productos.value) else []
  }

  /** A link succeeds exactly when its content was long enough and the extraction listed products. */
  lemma LinkSucceedsIff(companyName: string, link: string, fetch: Fetcher, extract: Extractor)
    ensures LinkYield(companyName, link, fetch, extract) != [] <==>
      && fetch(link).Ok? && |fetch(link).value| >= MinContentLength
      && extract(fetch(link).value, link).Ok?
      && var data := extract(fetch(link).value, link).value;
         data.productos.Some? && |data.productos.value| > 0
    ensures var y := LinkYield(companyName, link, fetch, extract);
      forall k :: 0 <= k < |y| ==> y[k].empresa == companyName
  {
  }

  /** The calls trying one link makes: always the fetch, and the extraction only for long enough content. */
  function LinkEffects(link: string, fetch: Fetcher): seq<Effect> {
    [Fetch(link)] + (if fetch(link).Ok? && |fetch(link).value| >= MinContentLength then [Extract(link)] else [])
  }

  /** The links loop so far: medications collected, successes counted, links tried and calls made. */
  datatype LinkPass = LinkPass(medications: seq<Medication>, successes: nat, tried: nat, trace: seq<Effect>)

  /** The links loop of one company over `links`, defined one link at a time from the front. */
  function RunLinks(companyName: string, links: seq<string>, fetch: Fetcher, extract: Extractor): (p: LinkPass)
    ensures p.successes <= MaxSuccessful
    ensures p.successes <= p.tried <= |links|
    ensures p.tried < |links| ==> p.successes == MaxSuccessful
    decreases |links|
  {
    if links == [] then LinkPass([], 0, 0, [])
    else
      var prev := RunLinks(companyName, links[..|links| - 1], fetch, extract);
      if prev.successes >= MaxSuccessful then prev
      else
        var link := links[|links| - 1];
        var y := LinkYield(companyName, link, fetch, extract);
        LinkPass(prev.medications + y, prev.successes + (if y != [] then 1 else 0), prev.tried + 1,
                 prev.trace + LinkEffects(link, fetch))
  }

  /** How many of `links` succeed. */
  function SuccessCount(companyName: string, links: seq<string>, fetch: Fetcher, extract: Extractor): nat
    decreases |links|
  {
    if links == [] then 0
    else SuccessCount(companyName, links[..|links| - 1], fetch, extract)
         + (if LinkYield(companyName, links[|links| - 1], fetch, extract) != [] then 1 else 0)
  }

  /** The successes counted are the tried links that yielded medications. */
  lemma {:induction false} SuccessesCounted(companyName: string, links: seq<string>, fetch: Fetcher, extract: Extractor)
    ensures RunLinks(companyName, links, fetch, extract).successes
         == SuccessCount(companyName, links[..RunLinks(companyName, links, fetch, extract).tried], fetch, extract)
    decreases |links|
  {
    if links != [] {
      var init := links[..|links| - 1];
      SuccessesCounted(companyName, init, fetch, extract);
      var prev := RunLinks(companyName, init, fetch, extract);
      var p := RunLinks(companyName, links, fetch, extract);
      if prev.successes < MaxSuccessful {
        var y := LinkYield(companyName, links[|links| - 1], fetch, extract);
        assert p.successes == prev.successes + (if y != [] then 1 else 0);
        assert init[..prev.tried] == init;
        assert links[..p.tried] == links;
        assert SuccessCount(companyName, links, fetch, extract)
            == SuccessCount(companyName, init, fetch, extract) + (if y != [] then 1 else 0);
      } else {
        assert p == prev;
        assert init[..prev.tried] == links[..prev.tried];
      }
    }
  }

  /** Medications were collected exactly when some link succeeded. */
  lemma {:induction false} NothingCollectedIffNoSuccess(companyName: string, links: seq<string>, fetch: Fetcher, extract: Extractor)
    ensures RunLinks(companyName, links, fetch, extract).medications == [] <==> RunLinks(companyName, links, fetch, extract).successes == 0
    decreases |links|
  {
    if links != [] {
      NothingCollectedIffNoSuccess(companyName, links[..|links| - 1], fetch, extract);
    }
  }

  /** Every medication is tagged with the company's name. */
  predicate AllTagged(meds: seq<Medication>, companyName: string) {
    forall k :: 0 <= k < |meds| ==> meds[k].empresa == companyName
  }

  /** Every collected medication is tagged with the company's name. */
  lemma {:induction false} MedicationsTagged(companyName: string, links: seq<string>, fetch: Fetcher, extract: Extractor)
    ensures AllTagged(RunLinks(companyName, links, fetch, extract).medications, companyName)
    decreases |links|
  {
    if links != [] {
      var init := links[..|links| - 1];
      MedicationsTagged(companyName, init, fetch, extract);
      var prev := RunLinks(companyName, init, fetch, extract);
      if prev.successes < MaxSuccessful {
        var y := LinkYield(companyName, links[|links| - 1], fetch, extract);
        LinkSucceedsIff(companyName, links[|links| - 1], fetch, extract);
        var meds := prev.medications + y;
        assert RunLinks(companyName, links, fetch, extract).medications == meds;
        assert forall k :: |prev.medications| <= k < |meds| ==> meds[k] == y[k - |prev.medications|];
      }
    }
  }

  /** Only fetches and extractions, and an extraction only of content of at least the minimum length. */
  predicate OnlyReads(t: seq<Effect>, fetch: Fetcher) {
    && (forall k :: 0 <= k < |t| ==> t[k].Fetch? || t[k].Extract?)
    && (forall k :: 0 <= k < |t| && t[k].Extract? ==>
          fetch(t[k].link).Ok? && |fetch(t[k].link).value| >= MinContentLength)
  }

  lemma OnlyReadsConcat(a: seq<Effect>, b: seq<Effect>, fetch: Fetcher)
    requires OnlyReads(a, fetch) && OnlyReads(b, fetch)
    ensures OnlyReads(a + b, fetch)
  {
    assert forall k :: |a| <= k < |a + b| ==> (a + b)[k] == b[k - |a|];
  }

  lemma LinkEffectsOnlyRead(link: string, fetch: Fetcher)
    ensures OnlyReads(LinkEffects(link, fetch), fetch)
  {
    var e := LinkEffects(link, fetch);
    assert e[0] == Fetch(link);
    assert |e| == 2 ==> e[1] == Extract(link) && fetch(link).Ok? && |fetch(link).value| >= MinContentLength;
  }

  /** The loop only fetches and extracts, and never extracts short content. */
  lemma {:induction false} ExtractsOnlyLongContent(companyName: string, links: seq<string>, fetch: Fetcher, extract: Extractor)
    ensures OnlyReads(RunLinks(companyName, links, fetch, extract).trace, fetch)
    decreases |links|
  {
    if links != [] {
      var init := links[..|links| - 1];
      ExtractsOnlyLongContent(companyName, init, fetch, extract);
      var prev := RunLinks(companyName, init, fetch, extract);
      if prev.successes < MaxSuccessful {
        var link := links[|links| - 1];
        LinkEffectsOnlyRead(link, fetch);
        OnlyReadsConcat(prev.trace, LinkEffects(link, fetch), fetch);
      }
    }
  }

  /** Once five links have succeeded the rest of the list is never tried. */
  lemma {:induction false} StopsAtCap(companyName: string, links: seq<string>, fetch: Fetcher, extract: Extractor, i: nat)
    requires i <= |links| && RunLinks(companyName, links[..i], fetch, extract).successes >= MaxSuccessful
    ensures RunLinks(companyName, links, fetch, extract) == RunLinks(companyName, links[..i], fetch, extract)
    decreases |links| - i
  {
    if i < |links| {
      var init := links[..|links| - 1];
      assert init[..i] == links[..i];
      StopsAtCap(companyName, init, fetch, extract, i);
    } else {
      assert links[..i] == links;
    }
  }

  /** The calls made for one company whose candidate links are `links`. */
  function CompanyTrace(company: Company, links: seq<string>, fetch: Fetcher, extract: Extractor): seq<Effect> {
    if links == [] then []
    else
      var p := RunLinks(company.name, links, fetch, extract);
      AfterLinks(p.trace, p.medications, company.id)
  }

  /** The links loop's calls, then the saves when medications were collected, then the stamp. */
  function AfterLinks(loopCalls: seq<Effect>, meds: seq<Medication>, companyId: string): seq<Effect> {
    loopCalls
    + (if meds != [] then [Save(meds), Publish, CreateTasks(meds)] else [])
    + [MarkScraped(companyId, false)]
  }

  /** `t` ends with the stamp of `companyId`, recording that no medications were found, and has no other stamp. */
  predicate EndsWithStamp(t: seq<Effect>, companyId: string) {
    && t != []
    && t[|t| - 1] == MarkScraped(companyId, false)
    && forall k :: 0 <= k < |t| - 1 ==> !t[k].MarkScraped?
  }

  /** Saving, publishing and task creation happen in `t` when `meds` is not empty, and only ever with `meds`. */
  predicate SavesExactly(t: seq<Effect>, meds: seq<Medication>) {
    && (meds != [] ==> Save(meds) in t && Publish in t && CreateTasks(meds) in t)
    && (meds == [] ==> Publish !in t)
    && forall k :: 0 <= k < |t| && (t[k].Save? || t[k].CreateTasks?) ==> t[k].medications == meds && meds != []
  }

  /** After a loop that only fetched and extracted, come the saves exactly when something was found, then the one stamp. */
  lemma AfterLinksShape(loopCalls: seq<Effect>, meds: seq<Medication>, companyId: string)
    requires forall k :: 0 <= k < |loopCalls| ==> loopCalls[k].Fetch? || loopCalls[k].Extract?
    ensures EndsWithStamp(AfterLinks(loopCalls, meds, companyId), companyId)
    ensures SavesExactly(AfterLinks(loopCalls, meds, companyId), meds)
  {
    var middle := if meds != [] then [Save(meds), Publish, CreateTasks(meds)] else [];
    var t := loopCalls + middle + [MarkScraped(companyId, false)];
    assert forall k :: 0 <= k < |loopCalls| ==> t[k] == loopCalls[k];
    assert forall k :: |loopCalls| <= k < |loopCalls| + |middle| ==> t[k] == middle[k - |loopCalls|];
    if meds != [] {
      assert t[|loopCalls|] == Save(meds);
      assert t[|loopCalls| + 1] == Publish;
      assert t[|loopCalls| + 2] == CreateTasks(meds);
    }
  }

  /**
   * A company without links is skipped and not stamped; otherwise saving,
   * publishing and task creation happen exactly when medications were
   * collected, all with that list, and the company is stamped last,
   * always as having found none.
   */
  lemma PersistenceShape(company: Company, links: seq<string>, fetch: Fetcher, extract: Extractor)
    ensures links == [] ==> CompanyTrace(company, links, fetch, extract) == []
    ensures links != [] ==> EndsWithStamp(CompanyTrace(company, links, fetch, extract), company.id)
    ensures links != [] ==>
      SavesExactly(CompanyTrace(company, links, fetch, extract), RunLinks(company.name, links, fetch, extract).medications)
  {
    if links != [] {
      ExtractsOnlyLongContent(company.name, links, fetch, extract);
      var p := RunLinks(company.name, links, fetch, extract);
      AfterLinksShape(p.trace, p.medications, company.id);
    }
  }

  /** The calls made for the companies in order. */
  function BatchTrace(companies: seq<Company>, findLinks: string -> seq<string>, fetch: Fetcher, extract: Extractor): seq<Effect>
    decreases |companies|
  {
    if companies == [] then []
    else
      var last := companies[|companies| - 1];
      BatchTrace(companies[..|companies| - 1], findLinks, fetch, extract)
      + CompanyTrace(last, findLinks(last.name), fetch, extract)
  }

  /** Every stamp in `t` records that no medications were found, for one of `companies`. */
  predicate StampsSayNone(t: seq<Effect>, companies: seq<Company>) {
    forall k :: 0 <= k < |t| && t[k].MarkScraped? ==>
      !t[k].medicationsFound && exists j :: 0 <= j < |companies| && companies[j].id == t[k].companyId
  }

  /** The only stamp of one company is its own, recording that no medications were found. */
  lemma CompanyStamp(company: Company, links: seq<string>, fetch: Fetcher, extract: Extractor)
    ensures StampsSayNone(CompanyTrace(company, links, fetch, extract), [company])
  {
    if links != [] {
      PersistenceShape(company, links, fetch, extract);
      assert [company][0] == company;
    }
  }

  /** Every stamp of a batch records that no medications were found, and only companies of the batch are stamped. */
  lemma {:induction false} BatchStampsSayNone(companies: seq<Company>, findLinks: string -> seq<string>, fetch: Fetcher, extract: Extractor)
    ensures StampsSayNone(BatchTrace(companies, findLinks, fetch, extract), companies)
    decreases |companies|
  {
    if companies != [] {
      var init := companies[..|companies| - 1];
      var last := companies[|companies| - 1];
      BatchStampsSayNone(init, findLinks, fetch, extract);
      var before := BatchTrace(init, findLinks, fetch, extract);
      var c := CompanyTrace(last, findLinks(last.name), fetch, extract);
      CompanyStamp(last, findLinks(last.name), fetch, extract);
      var t := before + c;
      forall k | 0 <= k < |t| && t[k].MarkScraped?
        ensures !t[k].medicationsFound && exists j :: 0 <= j < |companies| && companies[j].id == t[k].companyId
      {
        if k < |before| {
          assert t[k] == before[k];
          var j :| 0 <= j < |init| && init[j].id == before[k].companyId;
          assert companies[j] == init[j];
        } else {
          assert c[k - |before|] == t[k];
          var j :| 0 <= j < 1 && [last][j].id == c[k - |before|].companyId;
          assert companies[|companies| - 1].id == t[k].companyId;
        }
      }
    }
  }

  /** One pass of the links loop's body: fetch, skip short content, extract, keep non-empty `productos`. */
  method TryLink(companyName: string, link: string, fetch: Fetcher, extract: Extractor)
    returns (yielded: seq<Medication>, effects: seq<Effect>)
    ensures yielded == LinkYield(companyName, link, fetch, extract)
    ensures effects == LinkEffects(link, fetch)
  {
    yielded, effects := [], [Fetch(link)];
    var content := fetch(link);
    if content.Err? || |content.value| < MinContentLength {
      return;
    }
    effects := effects + [Extract(link)];
    var pipelineData := extract(content.value, link);
    if pipelineData.Ok? && pipelineData.value.productos.Some? && |pipelineData.value.productos.value| > 0 {
      yielded := Map(Tagger(companyName), pipelineData.value.productos.value);
    }
  }

  /** The links loop of one company, with its `break` at five successes. */
  method ProcessLinks(companyName: string, links: seq<string>, fetch: Fetcher, extract: Extractor)
    returns (medications: seq<Medication>, successes: nat, tried: nat, trace: seq<Effect>)
    ensures LinkPass(medications, successes, tried, trace) == RunLinks(companyName, links, fetch, extract)
  {
    medications, successes, trace := [], 0, [];
    var i := 0;
    while i < |links|
      invariant 0 <= i <= |links|
      invariant RunLinks(companyName, links[..i], fetch, extract) == LinkPass(medications, successes, i, trace)
      decreases |links| - i
    {
      if successes >= MaxSuccessful {
        StopsAtCap(companyName, links, fetch, extract, i);
        return medications, successes, i, trace;
      }
      assert links[..i + 1][..i] == links[..i];
      var yielded, effects := TryLink(companyName, links[i], fetch, extract);
      trace := trace + effects;
      if yielded != [] {
        medications := medications + yielded;
        successes := successes + 1;
      }
      i := i + 1;
    }
    assert links[..i] == links;
    tried := i;
  }

  /** The `try` block of one company that has links: the links loop, the saves when something was found, the stamp. */
  method ProcessCompany(company: Company, links: seq<string>, fetch: Fetcher, extract: Extractor) returns (calls: seq<Effect>)
    requires links != []
    ensures calls == CompanyTrace(company, links, fetch, extract)
  {
    var companyMedications, _, _, linkTrace := ProcessLinks(company.name, links, fetch, extract);
    calls := linkTrace;
    if companyMedications != [] {
      calls := calls + [Save(companyMedications), Publish, CreateTasks(companyMedications)];
    }
    calls := calls + [MarkScraped(company.id, false)];
  }

  /**
   * `main`: a failure to read the companies is fatal; otherwise each
   * company in turn is searched, scraped, persisted and stamped.
   */
  method RunScrape(companies: Result<seq<Company>, string>, findLinks: string -> seq<string>,
                   fetch: Fetcher, extract: Extractor)
    returns (outcome: Outcome, trace: seq<Effect>)
    ensures companies.Err? ==> outcome == FatalError(companies.error) && trace == []
    ensures companies.Ok? ==> outcome == Completed && trace == BatchTrace(companies.value, findLinks, fetch, extract)
  {
    if companies.Err? {
      return FatalError(companies.error), [];
    }
    var cs := companies.value;
    trace := [];
    var i := 0;
    while i < |cs|
      invariant 0 <= i <= |cs|
      invariant trace == BatchTrace(cs[..i], findLinks, fetch, extract)
    {
      var company := cs[i];
      assert cs[..i + 1][..i] == cs[..i];
      var links := findLinks(company.name);
      if links == [] {
        i := i + 1;
        continue;
      }
      var tail := ProcessCompany(company, links, fetch, extract);
      trace := trace + tail;
      i := i + 1;
    }
    assert cs[..i] == cs;
    outcome := Completed;
  }
}
