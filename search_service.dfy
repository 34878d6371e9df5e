/**
 * URL discovery for one company: the relevance filters applied to the
 * anchors of a search-results page, the known-domain lookup, the fixed
 * fallback paths and the combiner that merges them.
 *
 * The results page is given as data. An anchor carries what the page
 * script reads from it; what the browser URL parser and
 * `decodeURIComponent` would compute is given pre-split, with `None`
 * where they throw.
 */
module SearchService {
  import opened Wrappers
  import opened Text
  import opened Seqs

  // ---------------------------------------------------------------------
  // Company words
  // ---------------------------------------------------------------------

  /** `companyName.toLowerCase().split(' ')`. */
  function CompanyWords(companyName: string): (w: seq<string>)
    ensures |w| >= 1
  {
    Split(Lower(companyName), ' ')
  }

  /** The part of a URL between its second and third `/`, lower-cased; empty when there is none. */
  function UrlHost(url: string): (h: string)
    ensures '/' !in h
  {
    var parts := Split(url, '/');
    if |parts| > 2 then
      assert '/' !in parts[2];
      var h := Lower(parts[2]);
      assert forall k :: 0 <= k < |h| ==> h[k] != '/';
      h
    else ""
  }

  /** `host.split('.')[0]`: the first label of a host name. */
  function FirstLabel(host: string): string {
    Split(host, '.')[0]
  }

  // ---------------------------------------------------------------------
  // Google result filter (the page script of the Google search)
  // ---------------------------------------------------------------------

  /**
   * An anchor of a Google results page: its `href`, and the decoded text
   * after `/url?q=` up to the next `&` (`None` when decoding throws).
   */
  datatype GoogleAnchor = GoogleAnchor(href: string, redirect: Option<string>)

  /** The host of `url` and the first company word contain one another as the filter asks. */
  predicate GoogleHostMatches(url: string, firstWord: string) {
    var domain := UrlHost(url);
    Contains(domain, firstWord) || Contains(firstWord, FirstLabel(domain))
  }

  /** An absolute URL outside Google on a host that matches the company. */
  predicate GoogleAcceptable(url: string, firstWord: string) {
    StartsWith(url, "http") && !Contains(url, "google.com") && GoogleHostMatches(url, firstWord)
  }

  /** What one anchor adds to the set of results, in the order it adds them. */
  function GoogleCandidates(a: GoogleAnchor, firstWord: string): (r: seq<string>)
    ensures forall k :: 0 <= k < |r| ==> GoogleAcceptable(r[k], firstWord)
  {
    (if Contains(a.href, "/url?q=") && a.redirect.Some? && GoogleAcceptable(a.redirect.value, firstWord)
     then [a.redirect.value] else [])
    + (if GoogleAcceptable(a.href, firstWord) then [a.href] else [])
  }

  /** The candidates of a run of anchors, in document order. */
  function GoogleCandidatesOf(links: seq<GoogleAnchor>, firstWord: string): (r: seq<string>)
    ensures forall k :: 0 <= k < |r| ==> GoogleAcceptable(r[k], firstWord)
  {
    if links == [] then []
    else GoogleCandidatesOf(links[..|links| - 1], firstWord) + GoogleCandidates(links[|links| - 1], firstWord)
  }

  /** The Google filter's answer: the distinct candidates in first-seen order, at most 10. */
  function GoogleResults(links: seq<GoogleAnchor>, companyName: string): seq<string> {
    Take(Dedup(GoogleCandidatesOf(links, FirstWord(Lower(companyName)))), 10)
  }

  /** The page script of the Google search: walks the anchors and adds each accepted URL to a set. */
  method FilterGoogleLinks(links: seq<GoogleAnchor>, companyName: string) returns (urls: seq<string>)
    ensures urls == GoogleResults(links, companyName)
  {
    var firstWord := FirstWord(Lower(companyName));
    var found: seq<string> := [];
    var i := 0;
    while i < |links|
      invariant 0 <= i <= |links|
      invariant found == Dedup(GoogleCandidatesOf(links[..i], firstWord))
    {
      assert links[..i + 1][..i] == links[..i];
      found := AddAll(found, GoogleCandidatesOf(links[..i], firstWord), GoogleCandidates(links[i], firstWord));
      i := i + 1;
    }
    assert links[..i] == links;
    urls := Take(found, 10);
  }

  /** `searchPipelineUrlsWithGoogle`: a page that could not be loaded (`None`) gives no URLs. */
  method SearchPipelineUrlsWithGoogle(page: Option<seq<GoogleAnchor>>, companyName: string) returns (urls: seq<string>)
    ensures page.None? ==> urls == []
    ensures page.Some? ==> urls == GoogleResults(page.value, companyName)
  {
    if page.None? {
      return [];
    }
    urls := FilterGoogleLinks(page.value, companyName);
  }

  /**
   * Every Google result is an absolute URL outside Google whose host
   * matches the company, there are no repeats and at most 10 of them.
   */
  lemma GoogleResultsShape(links: seq<GoogleAnchor>, companyName: string)
    ensures Distinct(GoogleResults(links, companyName))
    ensures |GoogleResults(links, companyName)| <= 10
    ensures forall k :: 0 <= k < |GoogleResults(links, companyName)| ==>
      GoogleAcceptable(GoogleResults(links, companyName)[k], FirstWord(Lower(companyName)))
  {
    var c := GoogleCandidatesOf(links, FirstWord(Lower(companyName)));
    DedupSpec(c);
    TakeDistinct(Dedup(c), 10);
    var r := GoogleResults(links, companyName);
    forall k | 0 <= k < |r| ensures GoogleAcceptable(r[k], FirstWord(Lower(companyName))) {
      assert r[k] == Dedup(c)[k];
      assert r[k] in c;
    }
  }

  // ---------------------------------------------------------------------
  // DuckDuckGo result filter (the page script of the DuckDuckGo search)
  // ---------------------------------------------------------------------

  /** What `new URL(href)` gives: the host name and the path. */
  datatype UrlParts = UrlParts(hostname: string, pathname: string)

  /**
   * An anchor of a DuckDuckGo results page. For an absolute `href`,
   * `parsed` is the parse of `href` (`None` when it throws). For a relative
   * one, `uddg` is the value of its `uddg` query parameter (empty when
   * absent), `uddgDecoded` that value decoded (`None` when decoding
   * throws) and `uddgHost` the host of the decoded URL (`None` when it
   * does not parse).
   */
  datatype DdgAnchor = DdgAnchor(
    href: string,
    text: string,
    parsed: Option<UrlParts>,
    uddg: string,
    uddgDecoded: Option<string>,
    uddgHost: Option<string>)

  const ExcludedSubstrings: seq<string> :=
    ["duckduckgo.com", "javascript:", "facebook.com", "twitter.com", "linkedin.com", "youtube.com", "instagram.com"]

  const PathKeywords: seq<string> :=
    ["pipeline", "research", "development", "clinical", "drug", "product", "innovation", "science", "therapy",
     "pharmaceutical"]

  const TextKeywords: seq<string> := ["pipeline", "research", "clinical"]

  /** Some keyword of `kws` occurs in `s`. */
  predicate ContainsAny(s: string, kws: seq<string>) {
    exists k :: 0 <= k < |kws| && Contains(s, kws[k])
  }

  /** Links to the search engine itself, to scripts, to fragments and to social networks. */
  predicate IsExcludedHref(href: string) {
    ContainsAny(href, ExcludedSubstrings) || StartsWith(href, "#")
  }

  /** One company word of three or more characters relates to the host name. */
  predicate WordMatchesHost(word: string, host: string) {
    |word| >= 3 && (Contains(host, word) || Contains(word, FirstLabel(host)))
  }

  predicate DomainMatchesCompany(words: seq<string>, host: string) {
    exists k :: 0 <= k < |words| && WordMatchesHost(words[k], host)
  }

  predicate HasRelevantKeywords(path: string, text: string) {
    ContainsAny(path, PathKeywords) || ContainsAny(text, TextKeywords)
  }

  /** Some company word, of any length, occurs in the anchor text. */
  predicate TextMentionsCompany(words: seq<string>, text: string) {
    exists k :: 0 <= k < |words| && Contains(text, words[k])
  }

  /** What one anchor adds to the set of results, if anything. */
  function DdgCandidate(a: DdgAnchor, words: seq<string>): Option<string> {
    if a.href == "" || IsExcludedHref(a.href) then None
    else if StartsWith(a.href, "http") then
      match a.parsed
      case None => None
      case Some(u) =>
        var domain := Lower(u.hostname);
        var text := Lower(a.text);
        if DomainMatchesCompany(words, domain) then Some(a.href)
        else if HasRelevantKeywords(Lower(u.pathname), text) && TextMentionsCompany(words, text) then Some(a.href)
        else None
    else if StartsWith(a.href, "/") && a.uddg != "" then
      match a.uddgDecoded
      case None => None
      case Some(d) =>
        if !StartsWith(d, "http") then None
        else match a.uddgHost
          case None => None
          case Some(h) => if DomainMatchesCompany(words, Lower(h)) then Some(d) else None
    else None
  }

  function DdgCandidatesOf(links: seq<DdgAnchor>, words: seq<string>): seq<string> {
    if links == [] then []
    else
      DdgCandidatesOf(links[..|links| - 1], words)
      + match DdgCandidate(links[|links| - 1], words) case None => [] case Some(u) => [u]
  }

  /** The DuckDuckGo filter's answer: the distinct candidates in first-seen order, at most 15. */
  function DdgResults(links: seq<DdgAnchor>, companyName: string): seq<string> {
    Take(Dedup(DdgCandidatesOf(links, CompanyWords(companyName))), 15)
  }

  /** The page script of the DuckDuckGo search. */
  method FilterDuckDuckGoLinks(links: seq<DdgAnchor>, companyName: string) returns (urls: seq<string>)
    ensures urls == DdgResults(links, companyName)
  {
    var words := CompanyWords(companyName);
    var found: seq<string> := [];
    var i := 0;
    while i < |links|
      invariant 0 <= i <= |links|
      invariant found == Dedup(DdgCandidatesOf(links[..i], words))
    {
      assert links[..i + 1][..i] == links[..i];
      var c := DdgCandidate(links[i], words);
      if c.Some? {
        DedupSnoc(DdgCandidatesOf(links[..i], words), c.value);
        if c.value !in found {
          found := found + [c.value];
        }
      } else {
        assert DdgCandidatesOf(links[..i + 1], words) == DdgCandidatesOf(links[..i], words);
      }
      i := i + 1;
    }
    assert links[..i] == links;
    urls := Take(found, 15);
  }

  /** `searchPipelineUrlsWithDuckDuckGo`: a page that could not be loaded (`None`) gives no URLs. */
  method SearchPipelineUrlsWithDuckDuckGo(page: Option<seq<DdgAnchor>>, companyName: string)
    returns (urls: seq<string>)
    ensures page.None? ==> urls == []
    ensures page.Some? ==> urls == DdgResults(page.value, companyName)
  {
    if page.None? {
      return [];
    }
    urls := FilterDuckDuckGoLinks(page.value, companyName);
  }

  /** Excluded anchors are never accepted, whatever their host. */
  lemma ExcludedAnchorRejected(a: DdgAnchor, words: seq<string>)
    requires IsExcludedHref(a.href)
    ensures DdgCandidate(a, words) == None
  {
  }

  /**
   * An absolute link that is not excluded and parses is accepted exactly
   * when its host matches a company word, or else when it has a relevant
   * keyword and its text names the company; what is accepted is the `href`.
   */
  lemma AbsoluteAnchorAcceptedIff(a: DdgAnchor, words: seq<string>)
    requires StartsWith(a.href, "http") && !IsExcludedHref(a.href) && a.parsed.Some?
    ensures DdgCandidate(a, words).Some? <==>
      (DomainMatchesCompany(words, Lower(a.parsed.value.hostname))
       || (HasRelevantKeywords(Lower(a.parsed.value.pathname), Lower(a.text))
           && TextMentionsCompany(words, Lower(a.text))))
    ensures DdgCandidate(a, words).Some? ==> DdgCandidate(a, words).value == a.href
  {
  }

  /** A link whose host does not match needs both a keyword and a company mention in its text. */
  lemma NonMatchingHostNeedsKeywordAndMention(a: DdgAnchor, words: seq<string>)
    requires StartsWith(a.href, "http") && a.parsed.Some?
    requires !DomainMatchesCompany(words, Lower(a.parsed.value.hostname))
    requires DdgCandidate(a, words).Some?
    ensures HasRelevantKeywords(Lower(a.parsed.value.pathname), Lower(a.text))
    ensures TextMentionsCompany(words, Lower(a.text))
  {
  }

  /**
   * A relative link contributes only its decoded `uddg` target, only when
   * that is absolute, and only under the host rule: keywords and text play
   * no part.
   */
  lemma RelativeAnchorOnlyByHost(a: DdgAnchor, words: seq<string>)
    requires !StartsWith(a.href, "http")
    requires DdgCandidate(a, words).Some?
    ensures StartsWith(a.href, "/") && a.uddg != ""
    ensures a.uddgDecoded == Some(DdgCandidate(a, words).value)
    ensures StartsWith(DdgCandidate(a, words).value, "http")
    ensures a.uddgHost.Some? && DomainMatchesCompany(words, Lower(a.uddgHost.value))
  {
  }

  lemma {:induction false} DdgCandidatesOfComeFromAnchors(links: seq<DdgAnchor>, words: seq<string>, k: nat)
    requires k < |DdgCandidatesOf(links, words)|
    ensures exists i :: 0 <= i < |links| && DdgCandidate(links[i], words) == Some(DdgCandidatesOf(links, words)[k])
    decreases |links|
  {
    var p := links[..|links| - 1];
    var c := DdgCandidatesOf(p, words);
    if k < |c| {
      DdgCandidatesOfComeFromAnchors(p, words, k);
      var i :| 0 <= i < |p| && DdgCandidate(p[i], words) == Some(c[k]);
      assert p[i] == links[i];
    } else {
      assert DdgCandidate(links[|links| - 1], words) == Some(DdgCandidatesOf(links, words)[k]);
    }
  }

  /**
   * The DuckDuckGo results have no repeats, number at most 15, and each
   * was accepted from some anchor of the page.
   */
  lemma DdgResultsShape(links: seq<DdgAnchor>, companyName: string)
    ensures Distinct(DdgResults(links, companyName))
    ensures |DdgResults(links, companyName)| <= 15
    ensures forall k :: 0 <= k < |DdgResults(links, companyName)| ==>
      exists i :: 0 <= i < |links| && DdgCandidate(links[i], CompanyWords(companyName)) == Some(DdgResults(links, companyName)[k])
  {
    var words := CompanyWords(companyName);
    var c := DdgCandidatesOf(links, words);
    DedupSpec(c);
    TakeDistinct(Dedup(c), 15);
    var r := DdgResults(links, companyName);
    forall k | 0 <= k < |r|
      ensures exists i :: 0 <= i < |links| && DdgCandidate(links[i], words) == Some(r[k])
    {
      assert r[k] == Dedup(c)[k];
      assert r[k] in c;
      var m :| 0 <= m < |c| && c[m] == r[k];
      DdgCandidatesOfComeFromAnchors(links, words, m);
    }
  }

  // ---------------------------------------------------------------------
  // Known domains and fallback URLs
  // ---------------------------------------------------------------------

  /** The table of known companies, in its declaration order. */
  const KnownDomains: seq<(string, string)> := [
    ("pfizer", "pfizer.com"),
    ("novartis", "novartis.com"),
    ("roche", "roche.com"),
    ("johnson & johnson", "jnj.com"),
    ("merck", "merck.com"),
    ("gsk", "gsk.com"),
    ("glaxosmithkline", "gsk.com"),
    ("astrazeneca", "astrazeneca.com"),
    ("sanofi", "sanofi.com"),
    ("bayer", "bayer.com"),
    ("bristol myers squibb", "bms.com"),
    ("bms", "bms.com"),
    ("abbvie", "abbvie.com"),
    ("amgen", "amgen.com"),
    ("gilead", "gilead.com"),
    ("eli lilly", "lilly.com"),
    ("lilly", "lilly.com"),
    ("boehringer ingelheim", "boehringer-ingelheim.com"),
    ("takeda", "takeda.com"),
    ("biogen", "biogen.com"),
    ("regeneron", "regeneron.com"),
    ("moderna", "modernatx.com"),
    ("biontech", "biontech.com")
  ]

  /** Every domain of the table is a non-empty string. */
  lemma KnownDomainsNonEmpty()
    ensures forall i :: 0 <= i < |KnownDomains| ==> KnownDomains[i].1 != []
  {
  }

  predicate KeyIs(name: string, e: (string, string)) {
    e.0 == name
  }

  /** The partial-match test: either string contains the other. */
  predicate KeyOverlaps(name: string, e: (string, string)) {
    Contains(name, e.0) || Contains(e.0, name)
  }

  /** `getCompanyDomain`: exact key, then first overlapping key in table order, then `<first word>.com`. */
  function GetCompanyDomain(companyName: string): (d: string)
    ensures d != ""
  {
    var lowerName := Lower(companyName);
    KnownDomainsNonEmpty();
    match FindFirst(KnownDomains, e => KeyIs(lowerName, e))
    case Some(i) => KnownDomains[i].1
    case None =>
      match FindFirst(KnownDomains, e => KeyOverlaps(lowerName, e))
      case Some(i) => KnownDomains[i].1
      case None => FirstWord(lowerName) + ".com"
  }

  /** No key of the table appears twice. */
  lemma KnownKeysDistinct()
    ensures forall i, j :: 0 <= i < j < |KnownDomains| ==> KnownDomains[i].0 != KnownDomains[j].0
  {
  }

  /** A name whose lower-cased form is a key gets that key's domain. */
  lemma ExactKeyWins(companyName: string, i: nat)
    requires i < |KnownDomains| && KnownDomains[i].0 == Lower(companyName)
    ensures GetCompanyDomain(companyName) == KnownDomains[i].1
  {
    KnownKeysDistinct();
    FindFirstIsFirst(KnownDomains, e => KeyIs(Lower(companyName), e), i);
  }

  /**
   * Without an exact key, the first entry in table order whose key and the
   * name contain one another gives the domain.
   */
  lemma FirstOverlapWins(companyName: string, i: nat)
    requires forall j :: 0 <= j < |KnownDomains| ==> KnownDomains[j].0 != Lower(companyName)
    requires i < |KnownDomains| && KeyOverlaps(Lower(companyName), KnownDomains[i])
    requires forall j :: 0 <= j < i ==> !KeyOverlaps(Lower(companyName), KnownDomains[j])
    ensures GetCompanyDomain(companyName) == KnownDomains[i].1
  {
    FindFirstIsFirst(KnownDomains, e => KeyOverlaps(Lower(companyName), e), i);
  }

  /** A name unrelated to every key is guessed as its first word followed by `.com`. */
  lemma UnknownNameGuessed(companyName: string)
    requires forall j :: 0 <= j < |KnownDomains| ==> !KeyOverlaps(Lower(companyName), KnownDomains[j])
    ensures GetCompanyDomain(companyName) == FirstWord(Lower(companyName)) + ".com"
  {
    forall j | 0 <= j < |KnownDomains| ensures KnownDomains[j].0 != Lower(companyName) {
      if KnownDomains[j].0 == Lower(companyName) {
        ContainsSelf(Lower(companyName));
      }
    }
  }

  /** The empty name is contained in every key, so it resolves to the first entry of the table. */
  lemma EmptyNameResolvesToFirstEntry()
    ensures GetCompanyDomain("") == "pfizer.com"
  {
    ContainsEmpty("pfizer");
    FirstOverlapWins("", 0);
  }

  /** Fallback paths tried on the company's domain. */
  const CommonPaths: seq<string> := ["/pipeline", "/science/pipeline"]

  /**
   * `generateCommonPipelineUrls`. The source's empty-domain guard is kept;
   * since a domain is never empty the result always has both URLs.
   */
  function GenerateCommonPipelineUrls(companyName: string): (urls: seq<string>)
    ensures |urls| == 2
    ensures urls[0] == "https://www." + GetCompanyDomain(companyName) + "/pipeline"
    ensures urls[1] == "https://www." + GetCompanyDomain(companyName) + "/science/pipeline"
  {
    var domain := GetCompanyDomain(companyName);
    if domain == "" then []
    else seq(|CommonPaths|, k requires 0 <= k < |CommonPaths| => "https://www." + domain + CommonPaths[k])
  }

  /** The two fallback paths give different URLs on any domain. */
  lemma FallbackPathsDiffer(domain: string)
    ensures "https://www." + domain + "/pipeline" != "https://www." + domain + "/science/pipeline"
  {
    assert |"https://www." + domain + "/pipeline"| == |domain| + 21;
  }

  /** The two fallback URLs are different. */
  lemma CommonPipelineUrlsDistinct(companyName: string)
    ensures Distinct(GenerateCommonPipelineUrls(companyName))
  {
    FallbackPathsDiffer(GetCompanyDomain(companyName));
  }

  // ---------------------------------------------------------------------
  // URL validity
  // ---------------------------------------------------------------------

  const ExcludedDomains: seq<string> :=
    ["google.com", "facebook.com", "twitter.com", "linkedin.com", "youtube.com", "wikipedia.org", "instagram.com"]

  /** Some company word longer than three characters occurs in the URL's host. */
  predicate HostHasCompanyWord(url: string, companyName: string) {
    var words := CompanyWords(companyName);
    var parts := Split(Lower(url), '/');
    |parts| > 2 && exists k :: 0 <= k < |words| && |words[k]| > 3 && Contains(parts[2], words[k])
  }

  /**
   * `isValidPipelineUrl`. The keyword list it computes has no bearing on
   * the answer, so it does not appear here.
   */
  function IsValidPipelineUrl(url: string, companyName: string): (ok: bool)
    ensures ok <==> StartsWith(url, "http") && !ContainsAny(url, ExcludedDomains) && HostHasCompanyWord(url, companyName)
  {
    if url == "" then false
    else if !StartsWith(url, "http") then false
    else if ContainsAny(url, ExcludedDomains) then false
    else HostHasCompanyWord(url, companyName)
  }

  // ---------------------------------------------------------------------
  // Combined strategy
  // ---------------------------------------------------------------------

  /**
   * Search hits, then the fallback URLs when there are fewer than two
   * hits; duplicates removed keeping first occurrences, capped at 8.
   */
  function CombineUrls(found: seq<string>, fallback: seq<string>): seq<string> {
    var urls := found + (if |found| < 2 then fallback else []);
    Take(Dedup(urls), 8)
  }

  /** `findPipelineUrls`: the DuckDuckGo hits (the Google search is switched off), then the fallback. */
  method FindPipelineUrls(page: Option<seq<DdgAnchor>>, companyName: string) returns (uniqueUrls: seq<string>)
    ensures uniqueUrls == CombineUrls(if page.None? then [] else DdgResults(page.value, companyName),
                                      GenerateCommonPipelineUrls(companyName))
  {
    var urls: seq<string> := [];
    var duckUrls := SearchPipelineUrlsWithDuckDuckGo(page, companyName);
    urls := urls + duckUrls;
    assert urls == duckUrls;
    ghost var fallback := GenerateCommonPipelineUrls(companyName);
    if |urls| < 2 {
      var commonUrls := GenerateCommonPipelineUrls(companyName);
      urls := urls + commonUrls;
    } else {
      assert urls == duckUrls + [];
    }
    uniqueUrls := Take(Dedup(urls), 8);
  }

  /** The combined list has no repeats and at most 8 entries. */
  lemma CombineDistinctAndBounded(found: seq<string>, fallback: seq<string>)
    ensures Distinct(CombineUrls(found, fallback))
    ensures |CombineUrls(found, fallback)| <= 8
  {
    var urls := found + (if |found| < 2 then fallback else []);
    DedupSpec(urls);
    TakeDistinct(Dedup(urls), 8);
  }

  /** With two or more hits no fallback URL is added: the first 8 distinct hits. */
  lemma NoFallbackWithEnoughHits(found: seq<string>, fallback: seq<string>)
    requires |found| >= 2
    ensures CombineUrls(found, fallback) == Take(Dedup(found), 8)
  {
    assert found + [] == found;
  }

  /**
   * With fewer than two hits and a fallback of at most six URLs, nothing
   * is cut: the hits come first, and every fallback URL is present.
   */
  lemma FallbackWithFewHits(found: seq<string>, fallback: seq<string>)
    requires |found| < 2 && |fallback| <= 6
    ensures CombineUrls(found, fallback) == Dedup(found + fallback)
    ensures forall k :: 0 <= k < |fallback| ==> fallback[k] in CombineUrls(found, fallback)
    ensures CombineUrls(found, fallback)[..|Dedup(found)|] == Dedup(found)
  {
    var urls := found + fallback;
    DedupSpec(urls);
    assert Take(Dedup(urls), 8) == Dedup(urls);
    forall k | 0 <= k < |fallback| ensures fallback[k] in Dedup(urls) {
      assert urls[|found| + k] == fallback[k];
    }
    DedupPrefixStable(found, fallback);
  }

  /** Hits keep their order and come before any fallback URL. */
  lemma HitsComeFirst(found: seq<string>, fallback: seq<string>)
    ensures var h := Take(Dedup(found), 8);
      |h| <= |CombineUrls(found, fallback)| && CombineUrls(found, fallback)[..|h|] == h
  {
    var g := if |found| < 2 then fallback else [];
    DedupPrefixStable(found, g);
    TakeOfPrefix(Dedup(found), Dedup(found + g), 8);
  }


  /** With no hits at all, a duplicate-free fallback of at most 8 URLs is returned as it is. */
  lemma NoHitsGivesFallback(fallback: seq<string>)
    requires Distinct(fallback) && |fallback| <= 8
    ensures CombineUrls([], fallback) == fallback
  {
    assert [] + fallback == fallback;
    DedupOfDistinct(fallback);
  }

  /** The combined list is never empty: with fewer than two hits the fallback is appended. */
  lemma CombineNeverEmpty(found: seq<string>, fallback: seq<string>)
    requires fallback != []
    ensures CombineUrls(found, fallback) != []
  {
    var urls := found + (if |found| < 2 then fallback else []);
    assert urls != [];
    DedupSpec(urls);
    assert urls[0] in Dedup(urls);
  }

  /** `findPipelineUrls` always returns at least one URL, so its callers' empty-list guard never fires. */
  lemma FindPipelineUrlsNeverEmpty(found: seq<string>, companyName: string)
    ensures CombineUrls(found, GenerateCommonPipelineUrls(companyName)) != []
  {
    CombineNeverEmpty(found, GenerateCommonPipelineUrls(companyName));
  }
}
