/**
 * The HTTP handler of controllers/scraperController.js: for each company
 * of the request, find its candidate links and try them in order until
 * five have given pipeline data. A failing link is skipped; a company
 * none of whose links succeeded is reported as an error entry.
 */
module ScraperController {
  import opened Wrappers
  import opened OpenAIService
  import SearchService

  /** `req.body.companies`: absent or falsy, not an array, or a list of names. */
  datatype CompaniesField = Missing | NotAList | Names(names: seq<string>)

  /** One pipeline read from a link: the link with the extracted data spread beside it. */
  datatype PipelineEntry = PipelineEntry(url: string, data: PipelineData)

  /** The two errors the handler itself raises for a company. */
  datatype CompanyError = NoUrlsFound | NothingAccessible

  function CompanyErrorMessage(e: CompanyError, company: string): string {
    match e
    case NoUrlsFound => "No se encontraron URLs para " + company
    case NothingAccessible => "No se pudo acceder a ninguna URL de pipeline para " + company
  }

  /** One element of `results`. */
  datatype CompanyResult =
    | Pipelines(company: string, pipelines: seq<PipelineEntry>)
    | Failed(company: string, error: CompanyError)

  /** The answer: 400 for a request without companies, else `{ success: true, results }`. */
  datatype Response = BadRequest | Success(results: seq<CompanyResult>)

  const MaxSuccessful := 5

  /**
   * Trying one link of one company: the fetch cascade followed by the
   * extraction, giving the extracted data or the message of whatever was
   * thrown (a quota denial among them).
   */
  type Attempt = (string, string) -> Result<PipelineData, string>

  /** The links loop so far: the entries collected and how many links were tried. */
  datatype LinkPass = LinkPass(entries: seq<PipelineEntry>, tried: nat)

  /** The links loop over `links`, defined one link at a time from the front of the list. */
  function RunLinks(company: string, links: seq<string>, attempt: Attempt): (p: LinkPass)
    ensures |p.entries| <= MaxSuccessful
    ensures |p.entries| <= p.tried <= |links|
    ensures p.tried < |links| ==> |p.entries| == MaxSuccessful
    decreases |links|
  {
    if links == [] then LinkPass([], 0)
    else
      var prev := RunLinks(company, links[..|links| - 1], attempt);
      if |prev.entries| >= MaxSuccessful then prev
      else
        var link := links[|links| - 1];
        match attempt(company, link)
        case Ok(data) => LinkPass(prev.entries + [PipelineEntry(link, data)], prev.tried + 1)
        case Err(_) => LinkPass(prev.entries, prev.tried + 1)
  }

  /** How many of `links` succeed for `company`. */
  function SuccessCount(company: string, links: seq<string>, attempt: Attempt): nat
    decreases |links|
  {
    if links == [] then 0
    else SuccessCount(company, links[..|links| - 1], attempt) + (if attempt(company, links[|links| - 1]).Ok? then 1 else 0)
  }

  /** The successful links of `links`, in order, each with the data it gave: a filter read from the front. */
  function Successes(company: string, links: seq<string>, attempt: Attempt): seq<PipelineEntry>
    decreases |links|
  {
    if links == [] then []
    else
      var rest := Successes(company, links[1..], attempt);
      match attempt(company, links[0])
      case Ok(data) => [PipelineEntry(links[0], data)] + rest
      case Err(_) => rest
  }

  /** One more link at the end adds its entry exactly when it succeeds. */
  lemma {:induction false} SuccessesSnoc(company: string, links: seq<string>, link: string, attempt: Attempt)
    ensures Successes(company, links + [link], attempt)
      == Successes(company, links, attempt)
         + match attempt(company, link) case Ok(data) => [PipelineEntry(link, data)] case Err(_) => []
    decreases |links|
  {
    if links == [] {
      assert [] + [link] == [link];
      assert [link][1..] == [];
    } else {
      assert (links + [link])[1..] == links[1..] + [link];
      SuccessesSnoc(company, links[1..], link, attempt);
    }
  }

  /**
   * Only the tried links are attempted, and the entries are exactly the
   * tried links that succeeded, in order, with their data.
   */
  lemma {:induction false} EntriesAreSuccesses(company: string, links: seq<string>, attempt: Attempt)
    ensures var p := RunLinks(company, links, attempt);
      && p.entries == Successes(company, links[..p.tried], attempt)
      && |p.entries| == SuccessCount(company, links[..p.tried], attempt)
      && forall k :: 0 <= k < |p.entries| ==>
           p.entries[k].url in links[..p.tried] && attempt(company, p.entries[k].url) == Ok(p.entries[k].data)
    decreases |links|
  {
    if links != [] {
      var init := links[..|links| - 1];
      EntriesAreSuccesses(company, init, attempt);
      var prev := RunLinks(company, init, attempt);
      assert init[..prev.tried] == links[..prev.tried];
      var p := RunLinks(company, links, attempt);
      if |prev.entries| < MaxSuccessful {
        assert prev.tried == |init|;
        assert links[..p.tried] == links;
        assert links[..|links|][..|links| - 1] == init;
        assert links == init + [links[|links| - 1]];
        SuccessesSnoc(company, init, links[|links| - 1], attempt);
      }
    }
  }

  /** Once five links have succeeded the rest of the list is never tried and changes nothing. */
  lemma {:induction false} StopsAtCap(company: string, links: seq<string>, attempt: Attempt, i: nat)
    requires i <= |links| && |RunLinks(company, links[..i], attempt).entries| >= MaxSuccessful
    ensures RunLinks(company, links, attempt) == RunLinks(company, links[..i], attempt)
    decreases |links| - i
  {
    if i < |links| {
      var init := links[..|links| - 1];
      assert init[..i] == links[..i];
      StopsAtCap(company, init, attempt, i);
    } else {
      assert links[..i] == links;
    }
  }

  /** A failing link is as good as absent: removing it anywhere leaves the entries unchanged. */
  lemma {:induction false} FailingLinkIgnored(company: string, before: seq<string>, link: string, after: seq<string>,
                                              attempt: Attempt)
    requires attempt(company, link).Err?
    ensures RunLinks(company, before + ([link] + after), attempt).entries == RunLinks(company, before + after, attempt).entries
    decreases |after|
  {
    if after == [] {
      assert before + ([link] + after) == before + [link];
      assert (before + [link])[..|before|] == before;
      assert before + after == before;
    } else {
      var init := after[..|after| - 1];
      var last := after[|after| - 1];
      assert (before + ([link] + after))[..|before| + 1 + |init|] == before + ([link] + init);
      assert (before + after)[..|before| + |init|] == before + init;
      FailingLinkIgnored(company, before, link, init, attempt);
    }
  }

  /** The handler's result for one company with these candidate links. */
  function CompanyResultOf(company: string, links: seq<string>, attempt: Attempt): CompanyResult {
    if links == [] then Failed(company, NoUrlsFound)
    else
      var entries := RunLinks(company, links, attempt).entries;
      if entries == [] then Failed(company, NothingAccessible) else Pipelines(company, entries)
  }

  /** An error entry exactly when there were no links or none of those tried succeeded; otherwise one pipeline per success. */
  lemma CompanyResultShape(company: string, links: seq<string>, attempt: Attempt)
    ensures var r := CompanyResultOf(company, links, attempt);
      var p := RunLinks(company, links, attempt);
      && r.company == company
      && (r.Failed? <==> links == [] || SuccessCount(company, links[..p.tried], attempt) == 0)
      && (r.Pipelines? ==> 1 <= |r.pipelines| == SuccessCount(company, links[..p.tried], attempt) <= MaxSuccessful)
      && (r.Failed? && r.error == NothingAccessible ==> p.tried == |links|)
  {
    EntriesAreSuccesses(company, links, attempt);
  }

  /** Links found by the search stage are never empty, so that error entry does not arise. */
  lemma SearchedLinksNeverMissing(company: string, found: seq<string>, attempt: Attempt)
    ensures CompanyResultOf(company, SearchService.CombineUrls(found, SearchService.GenerateCommonPipelineUrls(company)), attempt)
      != Failed(company, NoUrlsFound)
  {
    SearchService.FindPipelineUrlsNeverEmpty(found, company);
  }

  /** The whole response; `findLinks` is the search stage applied to a company name. */
  function ResponseOf(field: CompaniesField, findLinks: string -> seq<string>, attempt: Attempt): Response {
    match field
    case Missing => BadRequest
    case NotAList => BadRequest
    case Names(names) =>
      if names == [] then BadRequest
      else Success(seq(|names|, k requires 0 <= k < |names| => CompanyResultOf(names[k], findLinks(names[k]), attempt)))
  }

  /** A request with companies gets exactly one entry per company, in the order given. */
  lemma OneEntryPerCompany(field: CompaniesField, findLinks: string -> seq<string>, attempt: Attempt)
    ensures ResponseOf(field, findLinks, attempt).BadRequest? <==> !field.Names? || field.names == []
    ensures var r := ResponseOf(field, findLinks, attempt);
      r.Success? ==> |r.results| == |field.names| && forall k :: 0 <= k < |r.results| ==> r.results[k].company == field.names[k]
  {
    var r := ResponseOf(field, findLinks, attempt);
    if r.Success? {
      forall k | 0 <= k < |r.results| ensures r.results[k].company == field.names[k] {
        CompanyResultShape(field.names[k], findLinks(field.names[k]), attempt);
      }
    }
  }

  /** The links loop of one company, with its early `break` at five successes. */
  method ProcessLinks(company: string, links: seq<string>, attempt: Attempt) returns (pipelines: seq<PipelineEntry>, tried: nat)
    ensures LinkPass(pipelines, tried) == RunLinks(company, links, attempt)
  {
    pipelines := [];
    var successfulScrapes := 0;
    var i := 0;
    while i < |links|
      invariant 0 <= i <= |links|
      invariant RunLinks(company, links[..i], attempt) == LinkPass(pipelines, i)
      invariant successfulScrapes == |pipelines|
      decreases |links| - i
    {
      if successfulScrapes >= MaxSuccessful {
        StopsAtCap(company, links, attempt, i);
        return pipelines, i;
      }
      var link := links[i];
      assert links[..i + 1][..i] == links[..i];
      match attempt(company, link) {
        case Ok(data) =>
          pipelines := pipelines + [PipelineEntry(link, data)];
          successfulScrapes := successfulScrapes + 1;
        case Err(_) =>
      }
      i := i + 1;
    }
    assert links[..i] == links;
    tried := i;
  }

  /** The `try` block of one company. */
  method ProcessCompany(company: string, links: seq<string>, attempt: Attempt) returns (result: CompanyResult)
    ensures result == CompanyResultOf(company, links, attempt)
  {
    if links == [] {
      return Failed(company, NoUrlsFound);
    }
    var pipelines, _ := ProcessLinks(company, links, attempt);
    if |pipelines| == 0 {
      return Failed(company, NothingAccessible);
    }
    result := Pipelines(company, pipelines);
  }

  /** `scrapePipelines`: validate the request, then one entry per company. */
  method ScrapePipelines(field: CompaniesField, findLinks: string -> seq<string>, attempt: Attempt) returns (response: Response)
    ensures response == ResponseOf(field, findLinks, attempt)
  {
    if !field.Names? || |field.names| == 0 {
      return BadRequest;
    }
    var companies := field.names;
    var results: seq<CompanyResult> := [];
    var i := 0;
    while i < |companies|
      invariant 0 <= i <= |companies|
      invariant |results| == i
      invariant forall k :: 0 <= k < i ==> results[k] == CompanyResultOf(companies[k], findLinks(companies[k]), attempt)
    {
      var company := companies[i];
      var links := findLinks(company);
      var r := ProcessCompany(company, links, attempt);
      results := results + [r];
      i := i + 1;
    }
    response := Success(results);
  }
}
