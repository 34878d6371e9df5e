# Pharma pipeline scraper — a verified model of its content-acquisition core

The scraper takes the names of pharmaceutical companies. It then:

- finds candidate "pipeline" pages for each company;
- fetches their text, first with a plain HTTP client and, when that yields too little, with a headless browser;
- asks a language model to extract the medications in development, under a local quota governor;
- files what it finds in HubSpot (a HubDB table and deals) and ClickUp (tasks).

This project models the sequential decision logic of that pipeline in Dafny and proves what the code promises about it. The browser, the HTTP clients, the language-model SDK, the filesystem and the clock are left outside. The model receives them as input values or as function-typed parameters, and returns what it asks of them as values or traces.

One module per source file:

| module | models |
|---|---|
| `UsageTracker` (usage_tracker.dfy) | services/openaiUsageTracker.js — the quota ledger, as a class `Tracker` whose methods update it in place |
| `SearchService` (search_service.dfy) | services/searchService.js — anchor filters, known-domain lookup, fallback URLs, the URL combiner |
| `ScraperService` (scraper_service.dfy) | services/scraperService.js — status acceptance, whitespace normalisation, the 100-character floor, error classification |
| `RenderedFetch` (rendered_fetch.dfy) | services/playwrightService.js and services/puppeteerService.js, modelled once and parameterised by `Engine`; the two differ only in their timeout test |
| `OpenAIService` (openai_service.dfy) | services/openaiService.js — gate, call, track; truncation; link extraction and cleaning; the rethrow policy |
| `ScraperController` (scraper_controller.dfy) | controllers/scraperController.js — the per-company and per-link loop of `scrapePipelines` |
| `ScrapeScript` (scrape_script.dfy) | scripts/scrape.js — the batch `main` loop, with the calls it makes as a trace of `Effect`s |
| `HubSpotService` (hubspot_service.dfy) | services/hubspotService.js — chunking, the staleness filter, the medication upsert, the last-scrape stamp |
| `ClickUpService` (clickup_service.dfy) | services/clickupService.js — the custom-field cache (class `FieldCache`), `findOptionUuid`, task create/update |
| `HubSpotDealsService` (hubspot_deals_service.dfy) | services/hubspotDealsService.js — pipeline/stage choice, the duplicate check, deal construction |
| `Wrappers`, `Seqs`, `Text` | `Option`/`Result`, sequence helpers (first match, map, take, the order-keeping de-duplication of `[...new Set(xs)]`), and the JavaScript string operations used (`includes`, `startsWith`, `trim`, `toLowerCase`, `split`) |

Imperative code keeps its form:

- Loops that push into arrays, and the filters that add to a `Set` inside `forEach`, are `method`s with `while` loops. Each is proved equal to a specification function, and the properties are lemmas about those functions.
- The tracker's module-level `usageData` and ClickUp's `customFieldsCache` are fields of classes.
- Code that only computes is written as functions.

## Design notes

Where the code's behaviour differs from what its names and comments suggest, the model follows the code:

- **A quota denial does not abort a batch.** `getPipelineLinks` and `extractPipelineData` throw when the tracker refuses. Both the controller (controllers/scraperController.js:68-71) and the script (scripts/scrape.js:81-83) catch that as one more per-link error, and go on to the next link and company.
- **A tracker denial for the per-minute limit is wrapped as a generic error by `getPipelineLinks`.** Its reason text starts with "Rate limit", but the test at services/openaiService.js:106 looks for the lower-case "rate limit". `LinksPolicy` models the test exactly as written.
- **A company never ends up without links** (for a company given as a string). `findPipelineUrls` always returns at least the two fallback URLs, because `getCompanyDomain` never returns an empty string. So the "no links" branches of the controller (controllers/scraperController.js:28-30) and of the script (scripts/scrape.js:36-41) never run after a real search. The model still states them for any link list.
- **The empty-domain guard in `generateCommonPipelineUrls` is dead** (services/searchService.js:294-297), for the same reason.
- **The script always stamps `medications_found_last_scrape = "No"`.** It calls `updateCompanyLastScrape(company.id)` with the default flag (scripts/scrape.js:101); `BatchStampsSayNone` proves this for every batch.
- **`isValidPipelineUrl` computes a keyword test but ignores it** (services/searchService.js:340-347). The result depends only on the scheme, the excluded domains and the host.
- **The per-session limit spans runs.** The limit of 100 is described in the code as requests per execution (services/openaiUsageTracker.js:18-20). But `loadUsageData` restores the stored session count (services/openaiUsageTracker.js:67-70) and nothing calls `resetSession` (services/openaiUsageTracker.js:288-295), so the count keeps growing from one run to the next. `UsageTracker.Tracker.LoadUsageData` states this carry-over.
- **`getValidStageId` checks digits only on a pipeline id it was given** (CreateDealForPost, services/hubspotDealsService.js:160-189). `createDealForPost` checks `HUBSPOT_PIPELINE_ID` for digits on every path, so a non-numeric pipeline id never creates a deal. A stage id taken from the pipeline listing is not checked for digits.

## Model

| member | source | states |
|---|---|---|
| UsageTracker.ResolveLimit | services/openaiService.js:131 | `parseInt(env) \|\| default`: a parsed, non-zero setting is used as is; a missing, unparsable or zero setting gives the default |
| UsageTracker.EstimateCost | services/openaiUsageTracker.js:105-113 | zero tokens cost nothing; the cost is at least the input-token price |
| UsageTracker.EstimateCostMonotone | services/openaiUsageTracker.js:105-113 | the cost never decreases when either token count grows |
| UsageTracker.Prune | services/openaiUsageTracker.js:93-100 | pruning never lengthens the window and keeps only timestamps newer than `now - 60000` |
| UsageTracker.PruneKeepsExactly | services/openaiUsageTracker.js:93-100 | a timestamp survives pruning iff it was in the window and is strictly newer than `now - 60000` |
| UsageTracker.PruneConcat | services/openaiUsageTracker.js:93-100 | pruning works element by element, so the order of the kept timestamps is preserved |
| UsageTracker.PruneIdempotent | services/openaiUsageTracker.js:93-100 | pruning twice at the same instant is pruning once |
| UsageTracker.PruneLater | services/openaiUsageTracker.js:93-100 | pruning at one instant and then at a later one is pruning at the later one |
| UsageTracker.RolledOver | services/openaiUsageTracker.js:126-133 | the daily record of another date is replaced by a zeroed one for today; today's record is kept unchanged |
| UsageTracker.Report | services/openaiUsageTracker.js:182-200 | each window reports its count and limit, with `requests + remaining == limit` |
| UsageTracker.CeilDiv1000Bounds | services/openaiUsageTracker.js:229 | the wait in seconds covers the remaining milliseconds and is at least 1 when any remain |
| UsageTracker.Evaluate | services/openaiUsageTracker.js:165-242 | the decision carries the current statistics; a request is allowed iff no denial reason is given |
| UsageTracker.FirstTrippedLimitWins | services/openaiUsageTracker.js:203-241 | the reason is limit `k` iff `k` trips and no limit earlier in the order daily, cost, session, minute trips |
| UsageTracker.AllowedIffNoLimitTrips | services/openaiUsageTracker.js:203-241 | a request is allowed iff none of the four limits trips |
| UsageTracker.WaitOnlyForMinuteLimit | services/openaiUsageTracker.js:227-235 | on a pruned window, only a per-minute denial carries a wait time, and it is at least one second |
| UsageTracker.WaitEvictsOldest | services/openaiUsageTracker.js:300-309 | after sleeping the computed wait, the oldest timestamp has left the window, which strictly shrinks |
| UsageTracker.FullWindowRecoversAfterWait | services/openaiUsageTracker.js:300-309 | a window full at the per-minute limit is below the limit after the wait |
| UsageTracker.SavedByCheck | services/openaiUsageTracker.js:169-177 | a check rewrites the usage file, zeroed for today and with the unpruned window, exactly when the date changed; otherwise the file is unchanged |
| UsageTracker.ResumeAt | services/openaiUsageTracker.js:300-309 | the wait ends after `now` exactly when the check denies a full, non-empty minute window, and then the window pruned at that instant is strictly smaller |
| UsageTracker.NewDayClearsDailyLimits | services/openaiUsageTracker.js:169-177 | after a date change, neither the daily request limit nor the cost limit can deny |
| UsageTracker.Tracker.constructor | services/openaiUsageTracker.js:30-45 | the ledger starts with a zeroed daily record for today, a zero session, an empty window and no saved file |
| UsageTracker.Tracker.LoadUsageData | services/openaiUsageTracker.js:48-75 | a stored daily record is kept only if dated today, otherwise zeroed; the stored session is carried over when present; the window is not read from the file |
| UsageTracker.Tracker.CleanMinuteWindow | services/openaiUsageTracker.js:93-100 | the window becomes its pruned self |
| UsageTracker.Tracker.SaveUsageData | services/openaiUsageTracker.js:78-90 | the saved file becomes a snapshot of the current ledger |
| UsageTracker.Tracker.TrackRequest | services/openaiUsageTracker.js:121-159 | after a rollover, daily and session requests rise by exactly 1, the cost by the estimate, `now` is appended to the pruned window, and the ledger is saved; no limit is checked |
| UsageTracker.Tracker.CanMakeRequest | services/openaiUsageTracker.js:165-242 | rolls the day over, prunes the window, saves (with the unpruned window) only on a date change, and returns the decision for the new state |
| UsageTracker.Tracker.GetUsageStats | services/openaiUsageTracker.js:247-283 | reports today's date and limits, with `remaining = limit - count` for the daily, session and minute windows |
| UsageTracker.Tracker.ResetSession | services/openaiUsageTracker.js:288-295 | session requests become 0; the daily record and window are untouched; the ledger is saved |
| UsageTracker.Tracker.WaitIfNeeded | services/openaiUsageTracker.js:300-309 | the clock moves to the end of the wait, which is later than `now` only after a per-minute denial; the day is rolled over, the session kept, the window pruned at the end of the wait, and the file saved as the check saves it |
| SearchService.CompanyWords | services/searchService.js:174 | splitting a company name always gives at least one word |
| SearchService.UrlHost | services/searchService.js:75-85 | the host taken from a URL contains no `/` |
| SearchService.GoogleCandidates | services/searchService.js:66-90 | every URL taken from one Google result passes the acceptance test |
| SearchService.GoogleCandidatesOf | services/searchService.js:66-90 | every URL taken from the result anchors passes the acceptance test |
| SearchService.FilterGoogleLinks | services/searchService.js:59-93 | the `Set`-building loop yields the specified Google result list |
| SearchService.SearchPipelineUrlsWithGoogle | services/searchService.js:9-107 | a page that failed to load gives `[]`; otherwise the filtered results |
| SearchService.GoogleResultsShape | services/searchService.js:60-92 | Google results are duplicate-free, at most 10, and each passes the acceptance test |
| SearchService.FilterDuckDuckGoLinks | services/searchService.js:172-269 | the `Set`-building loop yields the specified DuckDuckGo result list |
| SearchService.SearchPipelineUrlsWithDuckDuckGo | services/searchService.js:112-283 | a page that failed to load gives `[]`; otherwise the filtered results |
| SearchService.ExcludedAnchorRejected | services/searchService.js:189-198 | an href with `duckduckgo.com`, `javascript:`, a social domain, or a leading `#` is rejected |
| SearchService.AbsoluteAnchorAcceptedIff | services/searchService.js:201-239 | an absolute anchor is accepted iff its host matches the company, or its path or text has a pipeline keyword and its text mentions the company; the href is kept as is |
| SearchService.NonMatchingHostNeedsKeywordAndMention | services/searchService.js:215-239 | an accepted anchor whose host does not match has both a keyword and a company mention |
| SearchService.RelativeAnchorOnlyByHost | services/searchService.js:245-265 | a relative anchor is accepted only through a `uddg` target that starts with `http`, and only when that target's host matches the company |
| SearchService.DdgCandidatesOfComeFromAnchors | services/searchService.js:172-269 | every candidate URL is the accepted URL of some anchor on the page |
| SearchService.DdgResultsShape | services/searchService.js:172-269 | DuckDuckGo results are duplicate-free, at most 15, and each is the accepted URL of some anchor |
| SearchService.KnownDomainsNonEmpty | services/searchService.js:355-379 | every domain in the known-domain table is non-empty |
| SearchService.KnownKeysDistinct | services/searchService.js:355-379 | the known-domain table has no duplicate key |
| SearchService.GetCompanyDomain | services/searchService.js:381-397 | the resolved domain is never empty |
| SearchService.ExactKeyWins | services/searchService.js:384-386 | a lower-cased name equal to a table key resolves to that key's domain |
| SearchService.FirstOverlapWins | services/searchService.js:389-393 | with no exact key, the first entry in table order whose key and name contain one another wins |
| SearchService.UnknownNameGuessed | services/searchService.js:396-397 | a name overlapping no key resolves to its first word followed by `.com` |
| SearchService.EmptyNameResolvesToFirstEntry | services/searchService.js:389-393 | the empty name is contained in every key, so it resolves to the first entry, `pfizer.com` |
| SearchService.GenerateCommonPipelineUrls | services/searchService.js:288-309 | exactly `https://www.<domain>/pipeline` and `https://www.<domain>/science/pipeline`, in that order |
| SearchService.CommonPipelineUrlsDistinct | services/searchService.js:300-305 | the two fallback URLs differ |
| SearchService.IsValidPipelineUrl | services/searchService.js:314-348 | a URL is valid iff it starts with `http`, mentions no excluded domain, and its host contains a company word longer than 3 characters; the keyword test does not affect the result |
| SearchService.FindPipelineUrls | services/searchService.js:403-440 | the result combines the DuckDuckGo hits (`[]` when the page failed) with the two fallback URLs; the Google stage is not run |
| SearchService.CombineDistinctAndBounded | services/searchService.js:434 | the combined list is duplicate-free and has at most 8 URLs |
| SearchService.NoFallbackWithEnoughHits | services/searchService.js:427-434 | with 2 or more hits, no fallback is used: the result is the de-duplicated hits, capped at 8 |
| SearchService.FallbackWithFewHits | services/searchService.js:427-434 | with fewer than 2 hits, every fallback URL is in the result, after the de-duplicated hits |
| SearchService.HitsComeFirst | services/searchService.js:430-434 | the de-duplicated hits, capped at 8, are a prefix of the result, in first-occurrence order |
| SearchService.NoHitsGivesFallback | services/searchService.js:427-434 | with no hits, the result is the fallback list itself |
| SearchService.CombineNeverEmpty | services/searchService.js:427-434 | a non-empty fallback makes the result non-empty |
| SearchService.FindPipelineUrlsNeverEmpty | services/searchService.js:427-434 | whatever the search found, the result is never empty |
| Seqs.Dedup | services/searchService.js:434 | de-duplication never lengthens a list |
| Seqs.DedupSpec | services/searchService.js:434 | de-duplication keeps exactly the elements of the list, each once |
| Seqs.DedupPrefixStable | services/searchService.js:434 | appending to a list never reorders the de-duplication of its prefix (first-occurrence order) |
| ScraperService.Collapse | services/scraperService.js:44 | collapsing leaves no two adjacent whitespace characters, turns every whitespace run into one space, and is empty only for empty input |
| ScraperService.CollapseKeepsText | services/scraperService.js:44 | collapsing keeps every non-whitespace character, in order |
| ScraperService.SingleSpacedInfix | services/scraperService.js:46 | a slice of single-spaced text is single-spaced |
| ScraperService.TrimSingleSpaced | services/scraperService.js:46 | trimming keeps text single-spaced |
| ScraperService.TrimKeepsText | services/scraperService.js:46 | trimming removes only whitespace |
| ScraperService.NormalizeSingleSpaced | services/scraperService.js:42-46 | normalised text has no run of two whitespace characters and no leading or trailing whitespace |
| ScraperService.NormalizeKeepsText | services/scraperService.js:42-46 | normalisation keeps every non-whitespace character, in order |
| ScraperService.NormalizeHasNoNewline | services/scraperService.js:42-46 | normalised text contains no newline, so the second `replace` changes nothing |
| ScraperService.ScrapeWebsite | services/scraperService.js:7-96 | a success comes from a response with status in [200, 400), and is the normalised body of length at least 100 |
| ScraperService.CodesBeforeStatus | services/scraperService.js:58-68 | the codes `ENOTFOUND`, then `ETIMEDOUT`/`ECONNABORTED`, then `ECONNREFUSED`, decide before any status |
| ScraperService.StatusClasses | services/scraperService.js:71-91 | without those codes, statuses 403, 404, 429, at least 500, and others map to distinct errors |
| ScraperService.RejectedStatusReportedByStatus | services/scraperService.js:23 | a status outside [200, 400) fails with a status-class error |
| ScraperService.GenericErrors | services/scraperService.js:50-94 | the too-short error and errors with neither a known code nor a response become the generic error |
| ScraperService.AcceptedAnswerSucceedsIffLongEnough | services/scraperService.js:42-54 | an accepted response succeeds iff its normalised text has at least 100 characters; otherwise the generic too-short error |
| RenderedFetch.TrimAll | services/playwrightService.js:103 | every cell is trimmed, and cells stay in order |
| RenderedFetch.PushRowLines | services/playwrightService.js:99-105 | the row loop yields the specified row lines |
| RenderedFetch.PushTableLines | services/playwrightService.js:94-107 | the table loop yields the specified table lines |
| RenderedFetch.PushItemLines | services/playwrightService.js:113-116 | the item loop yields the specified item lines |
| RenderedFetch.PushListLines | services/playwrightService.js:110-117 | the list loop yields the specified list lines |
| RenderedFetch.PushSectionLines | services/playwrightService.js:120-129 | the pipeline-div loop yields the specified section lines |
| RenderedFetch.ExtractContent | services/playwrightService.js:82-132 | the in-page assembly yields the specified page text |
| RenderedFetch.PageTextOpensWithBody | services/playwrightService.js:90-91 | the text starts with the general header, a newline, then the body text |
| RenderedFetch.SectionsOnlyWhenPresent | services/playwrightService.js:94-131 | each of the tables, lists and sections blocks appears only when the page has such elements; with none, the text is the header and the body |
| RenderedFetch.RowLinesSkipEmpty | services/playwrightService.js:99-105 | rows without cells are skipped; each other row gives one line, in order |
| RenderedFetch.NonEmptyRows | services/playwrightService.js:100-105 | only rows with a cell are kept |
| RenderedFetch.RowLineOfOneCell | services/playwrightService.js:103 | a one-cell row's line is that cell trimmed, with no separator |
| RenderedFetch.SectionLinesInWindow | services/playwrightService.js:123-128 | every included pipeline div has trimmed length strictly between 20 and 5000 |
| RenderedFetch.SectionsInWindowKept | services/playwrightService.js:123-128 | every pipeline div whose trimmed length is in that window is included |
| RenderedFetch.EnginesAgreeWithoutCapitalTimeout | services/puppeteerService.js:182-201 | the two engines classify an error the same way unless the message has "Timeout" without "timeout" |
| RenderedFetch.TimeoutFirst | services/playwrightService.js:152-155 | a message with the engine's timeout word is a timeout, before any DNS or connection test |
| RenderedFetch.CapitalTimeoutSplitsEngines | services/puppeteerService.js:188 | "Timeout" is a timeout for Playwright but a generic error for Puppeteer |
| RenderedFetch.RenderResult | services/playwrightService.js:7-167 | a successful render has at least 100 characters |
| RenderedFetch.ScrapeRendered | services/puppeteerService.js:26-202 | both engines' scrapers give the specified render result |
| RenderedFetch.ShortRenderIsGeneric | services/playwrightService.js:138-141 | rendered text shorter than 100 characters fails with the generic error |
| RenderedFetch.SmartScrape | services/playwrightService.js:173-195 | first-tier text longer than 2000 characters is returned without rendering; otherwise, including a throw or exactly 2000, the renderer runs once and its result is returned |
| RenderedFetch.Headers | services/playwrightService.js:231-233 | one header per header cell, in order, each the cell's text trimmed and lower-cased |
| RenderedFetch.RecordShape | services/playwrightService.js:255-260 | every key of a row record is a header, and its value is the non-empty cell at that index; every non-empty cell with a header has a key |
| RenderedFetch.RecordOfDistinctHeaders | services/playwrightService.js:255-260 | with distinct headers, each non-empty cell is stored under its own header |
| RenderedFetch.NonPipelineTableIgnored | services/playwrightService.js:236-246 | a table with no pipeline keyword in its headers adds no record |
| RenderedFetch.OneRecordPerNonEmptyRow | services/playwrightService.js:249-263 | a pipeline table gives one record per body row with at least one cell |
| RenderedFetch.FillRecord | services/playwrightService.js:255-260 | the cell loop yields the specified row record |
| RenderedFetch.PushRowRecords | services/playwrightService.js:247-263 | the row loop yields the specified records |
| RenderedFetch.ExtractPipelineTables | services/puppeteerService.js:236-322 | the table loop yields the specified pipeline records |
| OpenAIService.Tokens | services/openaiService.js:211-212 | a missing token count is 0; otherwise the reported count |
| OpenAIService.ExtractPolicy | services/openaiService.js:229-234 | an extraction error is rethrown unchanged iff its message contains "Límite de OpenAI alcanzado"; otherwise wrapped |
| OpenAIService.DenialRethrown | services/openaiService.js:123-128 | a tracker denial reaches the caller with its own message |
| OpenAIService.OtherErrorsWrapped | services/openaiService.js:234 | any other error's message is prefixed with "Error al extraer datos: " |
| OpenAIService.LinksPolicy | services/openaiService.js:100-110 | "API key" or "authentication" gives the authentication error; failing that, the lower-case "rate limit" gives the rate-limit error; everything else is wrapped with its cause |
| OpenAIService.SentContentIsPrefix | services/openaiService.js:131-132 | the content sent is the prefix of length `min(length, maxLength)`, with `maxLength` 20000 unless configured |
| OpenAIService.Run | services/openaiService.js:78-79 | a run is the longest prefix without whitespace |
| OpenAIService.UrlRunsAreUrls | services/openaiService.js:78-79 | every extracted link starts with `http://` or `https://` and has no whitespace |
| OpenAIService.UrlRunsSplitAtSpace | services/openaiService.js:78-79 | links on either side of a whitespace character are extracted independently |
| OpenAIService.SingleUrl | services/openaiService.js:78-79 | a reply that is one URL yields exactly that URL |
| OpenAIService.CleanLinkIsPrefix | services/openaiService.js:83-84 | cleaning removes at most two trailing characters |
| OpenAIService.CleanLinkOrder | services/openaiService.js:83-84 | one trailing `,` or `.` is removed first, then one trailing `)` |
| OpenAIService.CleanAll | services/openaiService.js:83-84 | every link is cleaned, in order |
| OpenAIService.KeepHttp | services/openaiService.js:85 | only links starting with `http` are kept |
| OpenAIService.CleanedUrlKeepsScheme | services/openaiService.js:83-85 | a cleaned URL still starts with `http` |
| OpenAIService.FilterKeepsEveryMatch | services/openaiService.js:83-85 | the `http` filter drops no extracted link |
| OpenAIService.CleanedLinksShape | services/openaiService.js:82-86 | the result is the first `min(n, 3)` extracted links, each cleaned and starting with `http` |
| OpenAIService.NoLinksIffNoMatch | services/openaiService.js:79-93 | the cleaned list is empty iff the reply has no link, which is the case that raises the no-URL error |
| OpenAIService.Gated | services/openaiService.js:120-122 | after the gate the day is rolled over, the session kept, and exactly the timestamps newer than 60 seconds before the end of the wait remain |
| OpenAIService.Admit | services/openaiService.js:120-128 | the decision is taken at the end of the wait on the gated ledger; it admits iff no limit trips, and a denial names the first limit that trips; the file is saved as the check saves it |
| OpenAIService.ExtractPipelineData | services/openaiService.js:117-236 | a denial sends nothing, records nothing and is rethrown; otherwise the truncated content is sent; a denial or an API failure leaves the gated ledger and file; a completed call is tracked exactly once at its finishing time, with its token counts, its timestamp appended to the window and the ledger saved, before the reply is parsed |
| OpenAIService.GetPipelineLinks | services/openaiService.js:14-112 | a denial makes no call; a denial or an API failure leaves the gated ledger and file; a completed call is tracked once at its finishing time and saved; a success is 1 to 3 cleaned links; no link is an error |
| OpenAIService.ReadLinks | services/openaiService.js:63-95 | a completed call is tracked once: counts, cost, the appended timestamp and the save; the result is the cleaned links, or the no-URL error when there are none |
| ScraperController.RunLinks | controllers/scraperController.js:40-72 | at most 5 successes; links are tried in order, and a link is left untried only after 5 successes |
| ScraperController.EntriesAreSuccesses | controllers/scraperController.js:43-72 | the entries are the in-order filter of the tried links by success, each paired with its data |
| ScraperController.SuccessesSnoc | controllers/scraperController.js:52-66 | one more link adds its entry at the end exactly when it succeeds |
| ScraperController.StopsAtCap | controllers/scraperController.js:44-47 | once 5 links have succeeded, later links change nothing |
| ScraperController.FailingLinkIgnored | controllers/scraperController.js:68-71 | a failing link, a quota denial included, contributes nothing and does not stop the loop |
| ScraperController.CompanyResultShape | controllers/scraperController.js:28-86 | a company is an error iff it has no links or no success; otherwise it has between 1 and 5 pipeline records, one per success |
| ScraperController.SearchedLinksNeverMissing | controllers/scraperController.js:26-30 | links from the search never trigger the "no URLs" error |
| ScraperController.OneEntryPerCompany | controllers/scraperController.js:6-103 | a missing or empty company list is a bad request; otherwise there is one result per company, in input order |
| ScraperController.ProcessLinks | controllers/scraperController.js:40-72 | the link loop with its counter and `break` yields the specified pass |
| ScraperController.ProcessCompany | controllers/scraperController.js:23-87 | one company's processing yields the specified result |
| ScraperController.ScrapePipelines | controllers/scraperController.js:6-95 | the handler yields the specified response |
| ScrapeScript.LinkSucceedsIff | scripts/scrape.js:55-79 | a link yields medications iff it was fetched with at least 100 characters and the extraction listed products; each is tagged with the company |
| ScrapeScript.RunLinks | scripts/scrape.js:46-84 | at most 5 successes; a link is left untried only after 5 successes |
| ScrapeScript.SuccessesCounted | scripts/scrape.js:46-84 | the success count equals the number of succeeding links tried |
| ScrapeScript.NothingCollectedIffNoSuccess | scripts/scrape.js:46-84 | no medication is collected iff no link succeeded |
| ScrapeScript.MedicationsTagged | scripts/scrape.js:69-72 | every collected medication carries `empresa` equal to the company name |
| ScrapeScript.LinkEffectsOnlyRead | scripts/scrape.js:55-65 | a link fetches once and extracts only when the content has at least 100 characters |
| ScrapeScript.ExtractsOnlyLongContent | scripts/scrape.js:55-65 | over the whole loop, extraction runs only on content of at least 100 characters, and nothing is saved or stamped |
| ScrapeScript.StopsAtCap | scripts/scrape.js:50 | once 5 links have succeeded, later links change nothing |
| ScrapeScript.AfterLinksShape | scripts/scrape.js:87-102 | after the loop come save, publish and task creation exactly when medications were collected, then one stamp |
| ScrapeScript.PersistenceShape | scripts/scrape.js:36-102 | a company without links has no calls and no stamp; otherwise it persists exactly its collected medications, and only when there are some, then is stamped last |
| ScrapeScript.CompanyStamp | scripts/scrape.js:101 | a company's only stamp is its own and records that no medications were found |
| ScrapeScript.BatchStampsSayNone | scripts/scrape.js:101 | every stamp of the batch belongs to a batch company and records "No" |
| ScrapeScript.TryLink | scripts/scrape.js:54-83 | one link's handling yields the specified medications and calls |
| ScrapeScript.ProcessLinks | scripts/scrape.js:46-84 | the link loop with its counter, `continue` and `break` yields the specified pass |
| ScrapeScript.ProcessCompany | scripts/scrape.js:34-106 | one company's handling yields the specified calls |
| ScrapeScript.RunScrape | scripts/scrape.js:14-115 | a failure to read companies is fatal and makes no call; otherwise the calls are those of each company in order |
| HubSpotService.Chunks | services/hubspotService.js:44-49 | every chunk holds between 1 and 100 ids |
| HubSpotService.ChunksFlatten | services/hubspotService.js:44-49 | the chunks concatenate back to the id list, in order |
| HubSpotService.ChunksCount | services/hubspotService.js:44-49 | there are `ceil(n / 100)` chunks |
| HubSpotService.Named | services/hubspotService.js:65-71 | only companies with a name are kept |
| HubSpotService.NamedKeepsNamed | services/hubspotService.js:65-71 | exactly the nameless records are dropped |
| HubSpotService.KeepStale | services/hubspotService.js:77-94 | a company is selected iff it needs scraping |
| HubSpotService.StalenessEdges | services/hubspotService.js:77-94 | a company never scraped needs scraping; one with an unparsable date does not |
| HubSpotService.GetCompaniesToScrape | services/hubspotService.js:17-103 | the batch loop yields the specified selection; an empty segment gives no companies |
| HubSpotService.DatePartOfIso | services/hubspotService.js:227 | the stamped date is the `YYYY-MM-DD` part before the `T` |
| HubSpotService.LastScrapeProperties | services/hubspotService.js:216-227 | the medications flag is "Yes" iff medications were found, else "No" |
| HubSpotService.FindExisting | services/hubspotService.js:248-269 | a match is a listed row whose molecule equals the name, ignoring case |
| HubSpotService.FindExistingIsFirstMatch | services/hubspotService.js:248-269 | a failed listing gives no match; otherwise the first matching row, or none iff no row matches |
| HubSpotService.SaveActionSpec | services/hubspotService.js:274-311 | an existing row gets only `fase_cofepris` with the trimmed phase; otherwise a row is created with the four fields trimmed |
| HubSpotService.ListingFailureCreates | services/hubspotService.js:248-269 | when the listing fails, a new row is created |
| HubSpotService.ExistingRowPatched | services/hubspotService.js:276-290 | the first row matching the molecule is the one patched |
| HubSpotService.SaveMedications | services/hubspotService.js:334-355 | one write per medication, in order; `success` counts the accepted writes and `success + failed` is the number of medications |
| ClickUpService.PutSpec | services/clickupService.js:146-149 | assigning an option key keeps keys distinct, stores the new value, and keeps the other entries |
| ClickUpService.OptionsOfDistinct | services/clickupService.js:146-149 | a field's option map has distinct keys |
| ClickUpService.EveryFieldCached | services/clickupService.js:137-151 | every listed field is in the cache |
| ClickUpService.OnlyListedFieldsCached | services/clickupService.js:137-151 | only listed fields are in the cache |
| ClickUpService.LastFieldWins | services/clickupService.js:137-151 | when two fields share a name, the later one is cached |
| ClickUpService.FieldCache.constructor | services/clickupService.js:116 | the cache starts empty |
| ClickUpService.FieldCache.FillOptions | services/clickupService.js:146-149 | the option loop maps `name \|\| label` (the key "undefined" when both are missing) to `id \|\| orderindex` |
| ClickUpService.FieldCache.GetCustomFields | services/clickupService.js:121-158 | a set cache is returned without refetching; otherwise a successful listing fills it, and a failure leaves it unset |
| ClickUpService.NullForFalsyInput | services/clickupService.js:164 | an empty value or missing options give null |
| ClickUpService.ExactMatchWins | services/clickupService.js:166-174 | the first option equal to the trimmed value, ignoring case, wins over any partial match |
| ClickUpService.FirstPartialWins | services/clickupService.js:177-183 | with no exact match, the first option where either side contains the other wins |
| ClickUpService.NullIffNoPartialMatch | services/clickupService.js:168-186 | the result is null iff no option partially matches |
| ClickUpService.BlankValueTakesFirstOption | services/clickupService.js:177-183 | a whitespace-only value matches the first option |
| ClickUpService.FindExistingTask | services/clickupService.js:192-216 | a found task is listed and has the name, ignoring case; with none found, no listed task has it |
| ClickUpService.FieldEntry | services/clickupService.js:269-302 | an entry appears only when the field exists and the option uuid is non-null, and it carries that field's id |
| ClickUpService.CustomFieldsShape | services/clickupService.js:262-302 | at most Área, empresa and Fase, in that order, each present only when the field exists and its uuid is non-null |
| ClickUpService.ExistingTaskOnlyGetsPhase | services/clickupService.js:230-302 | an existing task gets only its Fase field, and only with a non-null uuid; otherwise a task is created with the medication's name and custom fields |
| ClickUpService.CreateClickUpTask | services/clickupService.js:221-321 | without fields nothing is written; otherwise the write is the task decision, and the call succeeds iff there is nothing to write or the write is accepted |
| ClickUpService.CallFields | services/clickupService.js:121-158 | a call uses the cache when it is set, otherwise its own listing exactly when that succeeds |
| ClickUpService.CacheAfter | services/clickupService.js:121-158 | a cache that is set is never changed by later calls |
| ClickUpService.FirstListingFills | services/clickupService.js:121-158 | from an unset cache, the first successful listing of the run fills it; with no successful listing it stays unset |
| ClickUpService.LaterListingsIgnored | services/clickupService.js:121-122 | once a listing has filled the cache, the answers of later calls are never used |
| ClickUpService.BatchWrites | services/clickupService.js:326-347 | one write per medication, in order, each the task decision with the fields its own call works with |
| ClickUpService.Created | services/clickupService.js:326-347 | at most one success per medication; none when the cache stays unset; every one when each call had fields and its write was accepted or not needed |
| ClickUpService.BatchStep | services/clickupService.js:332-338 | one more medication appends its write and counts it when it succeeds |
| ClickUpService.CreateClickUpTasks | services/clickupService.js:326-347 | each medication gets its own field-listing answer, used only while the cache is unset; the writes are the task decisions, in order; `success` counts the medications whose call had fields and whose write was accepted or not needed; `success + failed` is the number of medications; the final cache is the one the answers leave, and with no successful listing nothing succeeds |
| HubSpotDealsService.PipelineId | services/hubspotDealsService.js:7 | the pipeline id is the configured one, or `811215668` |
| HubSpotDealsService.DefaultPipelineIsNumeric | services/hubspotDealsService.js:7 | the built-in pipeline id is numeric |
| HubSpotDealsService.PipelinesAndStages | services/hubspotDealsService.js:16-33 | the listed pipelines, or none on a failure or missing results |
| HubSpotDealsService.FindPipeline | services/hubspotDealsService.js:58-66 | the index of the first pipeline with the id, or none iff no pipeline has it |
| HubSpotDealsService.ValidStageId | services/hubspotDealsService.js:40-80 | null without pipelines, with a non-numeric id, or with an unknown id; otherwise the first stage of the chosen pipeline, the first pipeline when none was asked for |
| HubSpotDealsService.StageFoundWhenPipelineHasStages | services/hubspotDealsService.js:68-75 | a chosen pipeline with stages gives its first stage |
| HubSpotDealsService.CheckDuplicateDeal | services/hubspotDealsService.js:87-126 | an empty link makes no search; a duplicate is reported iff the search listed at least one deal, and any error gives false |
| HubSpotDealsService.DescriptionCarriesPost | services/hubspotDealsService.js:152-192 | the description holds the post URL and the post text cut to 1000 characters |
| HubSpotDealsService.DealStage | services/hubspotDealsService.js:160-183 | a configured stage is used iff numeric; otherwise a numeric pipeline id is needed and the stage comes from the pipeline listing |
| HubSpotDealsService.CreateDealForPost | services/hubspotDealsService.js:134-223 | missing url, author or keyword gives null; a duplicate is reported before any creation; a created deal has the expected name, description, amount 0 MXN, a numeric pipeline and a valid stage |
| HubSpotDealsService.CreatedWhenAllChecksPass | services/hubspotDealsService.js:134-223 | when every check passes, a deal is created iff the creation call succeeds |
| HubSpotDealsService.NonNumericPipelineNeverCreates | services/hubspotDealsService.js:185-189 | a non-numeric pipeline id never creates a deal |

## Left out

- Browser automation, HTTP clients, the language-model SDK, and the HubSpot and ClickUp REST calls are not modelled. They are foreign and effectful, so their outcomes are parameters: a loaded page, a response, or an error with its code, status and message.
- The DOM, `new URL`, `URLSearchParams`, `decodeURIComponent`, the regular-expression engine and `JSON.parse` are not modelled. Pages arrive as data: anchors with pre-split host, path and decoded `uddg` target; tables, lists and divs. JSON parsing is a function parameter.
- Cheerio's element removal in `scrapeWebsite` is not modelled; the body text is given after it.
- The `fs` persistence of the ledger is not modelled. The saved file is a snapshot field of `Tracker`, and `LoadUsageData` takes the file's parsed contents.
- The clock, `setTimeout` sleeps and dates are not modelled. `now` (milliseconds), `today` (the UTC date token), the ISO timestamp and the three-months-ago threshold are parameters, and a sleep returns the advanced `now`.
- UsageTracker.EstimateCost: cost is a `real`, not an IEEE double.
- UsageTracker.Tracker.GetUsageStats: the reported cost is not rounded with `toFixed(4)` (services/openaiUsageTracker.js:266); the same holds for the string cost in the decision's statistics (services/openaiUsageTracker.js:187), which `Evaluate` reports unrounded.
- OpenAIService.Admit: `waitIfNeeded` and `canMakeRequest` each read the date; the model gives both the one date `today`. The calls to `getUsageStats` made only for logging are not modelled: the one on the extraction's denial path (services/openaiService.js:124) and the ones after every 10th request (services/openaiService.js:69-72, 216-219). Each rolls the day over and prunes the window (services/openaiUsageTracker.js:247-259), which at that instant changes nothing.
- Message texts and the numeric tails of denial and error messages are not modelled. Errors are datatypes that carry their cause.
- Lengths are not modelled as UTF-16: the model counts Unicode scalar values where JavaScript counts UTF-16 code units. The two differ only for characters outside the Basic Multilingual Plane.
- Text.Lower: `toLowerCase` is modelled for ASCII and Latin-1 capitals only.
- SearchService.GetCompanyDomain: keys inherited from `Object.prototype` (such as `constructor`) are not modelled in the known-domain lookup, because the table is a plain list here.
- SearchService.FindPipelineUrls: the Google stage is commented out in the code (services/searchService.js:416-424), so it is modelled on its own and not wired in.
- ClickUpService.FieldCache.GetCustomFields: a malformed listing response caches `{}`; only a failed request is modelled.
- The reordering of integer-like keys in `Object.entries` is not modelled; option maps keep assignment order.
- The AREA_OPTIONS, COMPANY_OPTIONS and PHASE_OPTIONS tables in services/clickupService.js are not modelled, because nothing reads them.
- ScraperController.ScrapePipelines: company names are modelled as strings only. The handler accepts any non-empty array (controllers/scraperController.js:10); an element that is not a string makes `getCompanyDomain` throw a TypeError (services/searchService.js:381), which the per-company `catch` reports as an error entry with that message (controllers/scraperController.js:81-87). The model has no such element and no such error entry.
- ClickUpService.CreateClickUpTasks: the task listing is one fixed input for the whole batch, so tasks created earlier in the batch are not seen. The same holds for the HubDB listing in HubSpotService.SaveMedications.
- The per-link oracles of ScraperController and ScrapeScript do not see the quota ledger's history between calls; a denial is one of the per-link failures they may return.
- ScrapeScript.RunScrape: the per-company `catch` (scripts/scrape.js:104-106) is not reachable in the model, because the sink calls report their own failures and never throw.
- `getUsageStats` of services/openaiService.js:241-243 is not modelled separately: it only calls `UsageTracker.Tracker.GetUsageStats`.
- The true/false answer of `updateCompanyLastScrape` is not modelled, only the properties it writes.
- `ensureScrapingProperty`, `ensureMedicationsFoundProperty` and `publishChanges` in services/hubspotService.js are not modelled: they are HTTP calls with no decision logic. Publishing appears in the script's trace as `Publish`.
- `getChromePath`, the browser launch options and all console logging are not modelled.
- server.js, routes/scraper.js and the other scripts are not part of this model. They are wiring, scheduling or one-off maintenance.
