/**
 * The two language-model calls of services/openaiService.js: both wait
 * for and consult the usage tracker before calling, record the usage of a
 * completed call, and map what went wrong to the error they raise. The
 * SDK call and `JSON.parse` are not modelled; their outcomes are inputs.
 */
module OpenAIService {
  import opened Wrappers
  import opened Text
  import opened Seqs
  import opened UsageTracker

  // ---------------------------------------------------------------------
  // Extracted data
  // ---------------------------------------------------------------------

  /** One extracted product; a missing field reads as the empty string, as `String(x || '')` does. */
  datatype Product = Product(molecula: string, areaTerapeutica: string, faseCofepris: string)

  /** A product tagged with the company it was found for: what the sinks receive. */
  datatype Medication = Medication(product: Product, empresa: string)

  /** The parsed reply; `productos` is absent when the reply has no such key. */
  datatype PipelineData = PipelineData(productos: Option<seq<Product>>)

  /** What `JSON.parse` makes of the reply text. */
  datatype JsonParse = Parsed(data: PipelineData) | Unparsable(message: string)

  // ---------------------------------------------------------------------
  // The completion call
  // ---------------------------------------------------------------------

  /** The completion: the message text and the token counts, when reported. */
  datatype Completion = Completion(content: string, promptTokens: Option<nat>, completionTokens: Option<nat>)

  /** The outcome of the SDK call. */
  datatype ApiOutcome = Answered(completion: Completion) | ApiFailed(message: string)

  /** `usage?.x_tokens || 0`. */
  function Tokens(reported: Option<nat>): (n: nat)
    ensures reported.None? ==> n == 0
    ensures reported.Some? ==> n == reported.value
  {
    if reported.Some? then reported.value else 0
  }

  // ---------------------------------------------------------------------
  // Errors
  // ---------------------------------------------------------------------

  const LimitPhrase := "Límite de OpenAI alcanzado"

  /** An error raised inside the `try` of either call. */
  datatype Raised =
    | Denied(reason: Denial)
    | ApiError(message: string)
    | NoUrls(companyName: string, response: string)
    | BadJson(message: string)

  /** The fixed opening of the tracker's denial reason; the counts that follow it are not modelled. */
  function ReasonHead(k: Denial): string {
    match k
    case DailyLimit => "Límite diario alcanzado"
    case CostLimit => "Límite de costo diario alcanzado"
    case SessionLimit => "Límite de sesión alcanzado"
    case MinuteLimit => "Rate limit"
  }

  function MessageOf(e: Raised): string {
    match e
    case Denied(k) => LimitPhrase + ": " + ReasonHead(k)
    case ApiError(m) => m
    case NoUrls(name, response) =>
      "No se encontraron URLs válidas para " + name + ". ChatGPT respondió: \"" + response + "\""
    case BadJson(m) => m
  }

  /** The error `extractPipelineData` raises. */
  datatype ExtractError = Rethrown(cause: Raised) | Wrapped(cause: Raised)

  function ExtractErrorMessage(e: ExtractError): string {
    match e
    case Rethrown(c) => MessageOf(c)
    case Wrapped(c) => "Error al extraer datos: " + MessageOf(c)
  }

  /** The catch of `extractPipelineData`: an error whose message names the limit goes out unchanged. */
  function ExtractPolicy(e: Raised): (r: ExtractError)
    ensures r.cause == e
    ensures r.Rethrown? <==> Contains(MessageOf(e), LimitPhrase)
  {
    if Contains(MessageOf(e), LimitPhrase) then Rethrown(e) else Wrapped(e)
  }

  /** A denial by the tracker is always rethrown as it was raised. */
  lemma DenialRethrown(k: Denial)
    ensures ExtractPolicy(Denied(k)) == Rethrown(Denied(k))
    ensures ExtractErrorMessage(ExtractPolicy(Denied(k))) == MessageOf(Denied(k))
  {
    var m := MessageOf(Denied(k));
    assert m[0..|LimitPhrase|] == LimitPhrase;
    ContainsAt(m, LimitPhrase, 0);
  }

  /** Any other error is wrapped, keeping its message after the fixed opening. */
  lemma OtherErrorsWrapped(e: Raised)
    requires !Contains(MessageOf(e), LimitPhrase)
    ensures ExtractErrorMessage(ExtractPolicy(e)) == "Error al extraer datos: " + MessageOf(e)
  {
  }

  /** The error `getPipelineLinks` raises. */
  datatype LinksError = AuthError | RateLimitError | LinksFailed(cause: Raised)

  function LinksErrorMessage(e: LinksError, companyName: string): string {
    match e
    case AuthError => "Error de autenticación con OpenAI. Verifica tu API key en el archivo .env"
    case RateLimitError => "Has excedido el límite de peticiones de OpenAI. Espera unos minutos e intenta de nuevo."
    case LinksFailed(c) => "Error al obtener links para " + companyName + ": " + MessageOf(c)
  }

  /** The catch of `getPipelineLinks`: authentication first, then the rate limit, else wrapped. */
  function LinksPolicy(e: Raised): (r: LinksError)
    ensures r == AuthError <==> Contains(MessageOf(e), "API key") || Contains(MessageOf(e), "authentication")
    ensures r == RateLimitError <==>
      !Contains(MessageOf(e), "API key") && !Contains(MessageOf(e), "authentication") && Contains(MessageOf(e), "rate limit")
    ensures r.LinksFailed? ==> r.cause == e
  {
    var m := MessageOf(e);
    if Contains(m, "API key") || Contains(m, "authentication") then AuthError
    else if Contains(m, "rate limit") then RateLimitError
    else LinksFailed(e)
  }

  // ---------------------------------------------------------------------
  // Content truncation
  // ---------------------------------------------------------------------

  const DefaultMaxContentLength := 20000

  /** `websiteContent.substring(0, parseInt(env) || 20000)`; `env` is the parsed setting, `None` for NaN. */
  function SentContent(content: string, env: Option<int>): string {
    Prefix(content, ResolveLimit(env, DefaultMaxContentLength))
  }

  /** The sent text is the first `min(len, maxLength)` characters, with 20000 unless a non-zero setting is given. */
  lemma SentContentIsPrefix(content: string, env: Option<int>)
    ensures StartsWith(content, SentContent(content, env))
    ensures var n := if env.Some? && env.value != 0 then env.value else DefaultMaxContentLength;
      |SentContent(content, env)| == if n <= 0 then 0 else if n >= |content| then |content| else n
  {
  }

  // ---------------------------------------------------------------------
  // Links in the reply
  // ---------------------------------------------------------------------

  /** The longest prefix of `s` without white space. */
  function Run(s: string): (r: string)
    ensures StartsWith(s, r)
    ensures forall k :: 0 <= k < |r| ==> !IsSpace(r[k])
    ensures |r| < |s| ==> IsSpace(s[|r|])
  {
    if s == [] || IsSpace(s[0]) then [] else [s[0]] + Run(s[1..])
  }

  /** A whole match of `/https?:\/\/[^\s]+/`. */
  predicate UrlLike(u: string) {
    && ((StartsWith(u, "http://") && |u| > 7) || (StartsWith(u, "https://") && |u| > 8))
    && forall k :: 0 <= k < |u| ==> !IsSpace(u[k])
  }

  /** `response.match(/https?:\/\/[^\s]+/g) || []`: scan left to right, resuming after each match. */
  function UrlRuns(s: string): seq<string>
    decreases |s|
  {
    if s == [] then []
    else if UrlLike(Run(s)) then [Run(s)] + UrlRuns(s[|Run(s)|..])
    else UrlRuns(s[1..])
  }

  /** Every match is a URL-like run of non-white-space characters. */
  lemma {:induction false} UrlRunsAreUrls(s: string)
    ensures forall k :: 0 <= k < |UrlRuns(s)| ==> UrlLike(UrlRuns(s)[k])
    decreases |s|
  {
    if s != [] {
      if UrlLike(Run(s)) {
        UrlRunsAreUrls(s[|Run(s)|..]);
      } else {
        UrlRunsAreUrls(s[1..]);
      }
    }
  }

  /** The longest space-free prefix stops at a white-space character. */
  lemma {:induction false} RunStopsAtSpace(a: string, t: string)
    requires t != [] && IsSpace(t[0])
    ensures Run(a + t) == Run(a)
  {
    if a == [] {
      assert a + t == t;
    } else {
      assert (a + t)[0] == a[0];
      if !IsSpace(a[0]) {
        assert (a + t)[1..] == a[1..] + t;
        RunStopsAtSpace(a[1..], t);
      }
    }
  }

  /** A leading white-space character is skipped. */
  lemma UrlRunsSkipSpace(t: string)
    requires t != [] && IsSpace(t[0])
    ensures UrlRuns(t) == UrlRuns(t[1..])
  {
    assert Run(t) == [];
  }

  /** Two texts with the same first run are scanned alike up to the end of that run. */
  lemma UrlRunsSameStep(s: string, t: string, n: nat)
    requires s != [] && t != [] && Run(s) == Run(t)
    requires n == if UrlLike(Run(s)) then |Run(s)| else 1
    requires n <= |s| && n <= |t|
    ensures UrlRuns(s) == (if UrlLike(Run(s)) then [Run(s)] else []) + UrlRuns(s[n..])
    ensures UrlRuns(t) == (if UrlLike(Run(s)) then [Run(s)] else []) + UrlRuns(t[n..])
  {
  }

  lemma AppendAssoc(x: seq<string>, y: seq<string>, z: seq<string>)
    ensures x + (y + z) == (x + y) + z
  {
  }

  lemma DropThenAppend(a: string, b: string, n: nat)
    requires n <= |a|
    ensures (a + b)[n..] == a[n..] + b
  {
  }

  /**
   * Text on either side of a white-space character is scanned separately,
   * so a reply with one URL per line yields its lines.
   */
  lemma {:induction false} UrlRunsSplitAtSpace(a: string, t: string)
    requires t != [] && IsSpace(t[0])
    ensures UrlRuns(a + t) == UrlRuns(a) + UrlRuns(t[1..])
    decreases |a|
  {
    if a == [] {
      assert a + t == t;
      UrlRunsSkipSpace(t);
    } else {
      RunStopsAtSpace(a, t);
      var head := if UrlLike(Run(a)) then [Run(a)] else [];
      var n := if UrlLike(Run(a)) then |Run(a)| else 1;
      UrlRunsSameStep(a + t, a, n);
      DropThenAppend(a, t, n);
      UrlRunsSplitAtSpace(a[n..], t);
      var rest := UrlRuns(a[n..]);
      var after := UrlRuns(t[1..]);
      assert UrlRuns(a + t) == head + (rest + after);
      assert UrlRuns(a) == head + rest;
      AppendAssoc(head, rest, after);
    }
  }

  /** A reply that is a single URL yields exactly that URL. */
  lemma SingleUrl(u: string)
    requires UrlLike(u)
    ensures UrlRuns(u) == [u]
  {
    assert Run(u) == u;
    assert u[|u|..] == [];
  }

  /** `.replace(/[,.]$/, '')` then `.replace(/\)$/, '')`. */
  function CleanLink(u: string): string {
    var v := if u != [] && (u[|u| - 1] == ',' || u[|u| - 1] == '.') then u[..|u| - 1] else u;
    if v != [] && v[|v| - 1] == ')' then v[..|v| - 1] else v
  }

  /** Cleaning removes at most two characters from the end and nothing else. */
  lemma CleanLinkIsPrefix(u: string)
    ensures StartsWith(u, CleanLink(u)) && |u| - 2 <= |CleanLink(u)| <= |u|
  {
  }

  /** The punctuation is removed before the parenthesis: `v).` loses both, `v.)` keeps its dot. */
  lemma CleanLinkOrder(v: string)
    ensures CleanLink(v + ")" + ".") == v
    ensures CleanLink(v + "," + ")") == v + ","
    ensures CleanLink(v + "." + ")") == v + "."
  {
    assert (v + ")" + ".")[..|v| + 1] == v + ")";
    assert (v + ")")[..|v|] == v;
    assert (v + "," + ")")[..|v| + 1] == v + ",";
    assert (v + "." + ")")[..|v| + 1] == v + ".";
  }

  function CleanAll(links: seq<string>): (r: seq<string>)
    ensures |r| == |links|
    ensures forall k :: 0 <= k < |r| ==> r[k] == CleanLink(links[k])
  {
    if links == [] then [] else [CleanLink(links[0])] + CleanAll(links[1..])
  }

  /** `.filter(link => link.startsWith('http'))`. */
  function KeepHttp(links: seq<string>): (r: seq<string>)
    ensures |r| <= |links|
    ensures forall k :: 0 <= k < |r| ==> StartsWith(r[k], "http")
  {
    if links == [] then []
    else (if StartsWith(links[0], "http") then [links[0]] else []) + KeepHttp(links[1..])
  }

  /** A cleaned match still starts with `http`. */
  lemma CleanedUrlKeepsScheme(u: string)
    requires UrlLike(u)
    ensures StartsWith(CleanLink(u), "http")
  {
    CleanLinkIsPrefix(u);
  }

  /** The scheme filter drops nothing, since every cleaned match still starts with `http`. */
  lemma {:induction false} FilterKeepsEveryMatch(links: seq<string>)
    requires forall k :: 0 <= k < |links| ==> UrlLike(links[k])
    ensures KeepHttp(CleanAll(links)) == CleanAll(links)
  {
    if links != [] {
      CleanedUrlKeepsScheme(links[0]);
      assert CleanAll(links)[1..] == CleanAll(links[1..]);
      FilterKeepsEveryMatch(links[1..]);
    }
  }

  /** The links the reply yields: matches, cleaned, filtered, at most three. */
  function CleanedLinks(response: string): seq<string> {
    Take(KeepHttp(CleanAll(UrlRuns(response))), 3)
  }

  /** The kept links are the first up-to-three matches, each cleaned, so each starts with `http`. */
  lemma CleanedLinksShape(response: string)
    ensures var r := CleanedLinks(response);
      && |r| == (if |UrlRuns(response)| < 3 then |UrlRuns(response)| else 3)
      && (forall k :: 0 <= k < |r| ==> r[k] == CleanLink(UrlRuns(response)[k]))
      && (forall k :: 0 <= k < |r| ==> StartsWith(r[k], "http"))
  {
    UrlRunsAreUrls(response);
    FilterKeepsEveryMatch(UrlRuns(response));
  }

  /** No link is returned exactly when the reply has no match. */
  lemma NoLinksIffNoMatch(response: string)
    ensures CleanedLinks(response) == [] <==> UrlRuns(response) == []
  {
    CleanedLinksShape(response);
  }

  // ---------------------------------------------------------------------
  // The gated calls
  // ---------------------------------------------------------------------

  /**
   * The ledger after the gate at `now` on `today`: rolled over, the session
   * unchanged, the minute window pruned at the instant the wait ends.
   */
  function Gated(limits: Limits, before: Ledger, now: int, today: string): (l: Ledger)
    ensures l.daily == RolledOver(before.daily, today) && l.session == before.session
    ensures forall x :: x in l.window <==>
      x in before.window && x > ResumeAt(limits, before.daily, before.session, before.window, now, today) - WindowMs
  {
    var after := ResumeAt(limits, before.daily, before.session, before.window, now, today);
    assert forall x :: x in Prune(before.window, after) <==> x in before.window && x > after - WindowMs by {
      forall x {
        PruneKeepsExactly(before.window, after, x);
      }
    }
    Ledger(RolledOver(before.daily, today), before.session, Prune(before.window, after))
  }

  /**
   * `await waitIfNeeded()` then `canMakeRequest()`: the decision on the
   * ledger as it stands after any wait, taken at the instant `after` the
   * wait ends.
   */
  method Admit(t: Tracker, now: int, today: string) returns (check: Decision, after: int)
    modifies t
    ensures after == ResumeAt(t.limits, old(t.daily), old(t.session), old(t.window), now, today)
    ensures t.Current() == Gated(t.limits, old(t.Current()), now, today)
    ensures t.saved == SavedByCheck(old(t.saved), old(t.daily), old(t.session), old(t.window), today)
    ensures check == Evaluate(t.limits, t.daily, t.session, t.window, after)
    ensures check.allowed <==> forall k: Denial :: !Trips(k, t.limits, t.daily, t.session, t.window)
    ensures check.allowed <==> check.reason.None?
    ensures check.reason.Some? ==> FirstTripped(check.reason.value, t.limits, t.daily, t.session, t.window)
  {
    after := t.WaitIfNeeded(now, today);
    check := t.CanMakeRequest(after, today);
    PruneIdempotent(old(t.window), after);
    AllowedIffNoLimitTrips(t.limits, t.daily, t.session, t.window, after);
    if check.reason.Some? {
      FirstTrippedLimitWins(t.limits, t.daily, t.session, t.window, after, check.reason.value);
    }
  }

  /**
   * `extractPipelineData`: gate, send the truncated content (`sent`),
   * record the usage of the completion at `finishedAt` on `finishedOn`, and
   * parse the trimmed reply. A denial sends nothing and records nothing.
   */
  method ExtractPipelineData(t: Tracker, websiteContent: string, env: Option<int>, reply: ApiOutcome,
                             parse: string -> JsonParse, now: int, finishedAt: int, today: string, finishedOn: string)
    returns (r: Result<PipelineData, ExtractError>, sent: Option<string>)
    modifies t
    ensures sent.None? <==> r.Err? && r.error.cause.Denied?
    ensures sent.None? ==>
      && r.error.Rethrown?
      && FirstTripped(r.error.cause.reason, t.limits, t.daily, t.session, t.window)
    ensures sent.Some? ==> sent.value == SentContent(websiteContent, env)
    ensures sent.Some? && reply.ApiFailed? ==> r == Err(ExtractPolicy(ApiError(reply.message)))
    ensures (sent.None? || reply.ApiFailed?) ==>
      && t.Current() == Gated(t.limits, old(t.Current()), now, today)
      && t.saved == SavedByCheck(old(t.saved), old(t.daily), old(t.session), old(t.window), today)
    ensures sent.Some? && reply.Answered? ==>
      var c := reply.completion;
      var gated := Gated(t.limits, old(t.Current()), now, today);
      var d := RolledOver(gated.daily, finishedOn);
      && t.daily == Daily(finishedOn, d.requests + 1, d.estimatedCost + EstimateCost(Tokens(c.promptTokens), Tokens(c.completionTokens)))
      && t.session == Session(old(t.session).requests + 1)
      && t.window == Prune(gated.window, finishedAt) + [finishedAt]
      && t.saved == Some(t.Current())
      && r == match parse(Trim(c.content))
        case Parsed(data) => Ok(data)
        case Unparsable(m) => Err(ExtractPolicy(BadJson(m)))
  {
    var check, _ := Admit(t, now, today);
    if !check.allowed {
      DenialRethrown(check.reason.value);
      return Err(ExtractPolicy(Denied(check.reason.value))), None;
    }
    sent := Some(SentContent(websiteContent, env));
    match reply {
      case ApiFailed(m) =>
        r := Err(ExtractPolicy(ApiError(m)));
      case Answered(c) =>
        var usage := t.TrackRequest(Tokens(c.promptTokens), Tokens(c.completionTokens), finishedAt, finishedOn);
        match parse(Trim(c.content)) {
          case Parsed(data) => r := Ok(data);
          case Unparsable(m) => r := Err(ExtractPolicy(BadJson(m)));
        }
    }
  }

  /**
   * `getPipelineLinks`: gate, call (`called`), record the usage, and
   * return the cleaned links of the trimmed reply, an empty list being an
   * error. Every error goes through the catch's classification.
   */
  method GetPipelineLinks(t: Tracker, companyName: string, reply: ApiOutcome, now: int, finishedAt: int,
                          today: string, finishedOn: string)
    returns (r: Result<seq<string>, LinksError>, called: bool)
    modifies t
    ensures r.Ok? ==> called && reply.Answered? && r.value == CleanedLinks(Trim(reply.completion.content)) && 1 <= |r.value| <= 3
    ensures !called ==>
      exists k: Denial :: FirstTripped(k, t.limits, t.daily, t.session, t.window) && r == Err(LinksPolicy(Denied(k)))
    ensures called && reply.ApiFailed? ==> r == Err(LinksPolicy(ApiError(reply.message)))
    ensures (!called || reply.ApiFailed?) ==>
      && t.Current() == Gated(t.limits, old(t.Current()), now, today)
      && t.saved == SavedByCheck(old(t.saved), old(t.daily), old(t.session), old(t.window), today)
    ensures called && reply.Answered? ==>
      var c := reply.completion;
      var response := Trim(c.content);
      var gated := Gated(t.limits, old(t.Current()), now, today);
      var d := RolledOver(gated.daily, finishedOn);
      && t.daily == Daily(finishedOn, d.requests + 1, d.estimatedCost + EstimateCost(Tokens(c.promptTokens), Tokens(c.completionTokens)))
      && t.session == Session(old(t.session).requests + 1)
      && t.window == Prune(gated.window, finishedAt) + [finishedAt]
      && t.saved == Some(t.Current())
      && r == if CleanedLinks(response) == [] then Err(LinksPolicy(NoUrls(companyName, response))) else Ok(CleanedLinks(response))
  {
    var check, _ := Admit(t, now, today);
    if !check.allowed {
      var k := check.reason.value;
      assert FirstTripped(k, t.limits, t.daily, t.session, t.window);
      return Err(LinksPolicy(Denied(k))), false;
    }
    called := true;
    if reply.ApiFailed? {
      return Err(LinksPolicy(ApiError(reply.message))), true;
    }
    r := ReadLinks(t, companyName, reply.completion, finishedAt, finishedOn);
  }

  /** The answered branch of `getPipelineLinks`: record the usage, then clean the links of the trimmed reply. */
  method ReadLinks(t: Tracker, companyName: string, c: Completion, finishedAt: int, finishedOn: string)
    returns (r: Result<seq<string>, LinksError>)
    modifies t
    ensures r.Ok? ==> r.value == CleanedLinks(Trim(c.content)) && 1 <= |r.value| <= 3
    ensures var d := RolledOver(old(t.daily), finishedOn);
      && t.daily == Daily(finishedOn, d.requests + 1, d.estimatedCost + EstimateCost(Tokens(c.promptTokens), Tokens(c.completionTokens)))
      && t.session == Session(old(t.session).requests + 1)
      && t.window == Prune(old(t.window), finishedAt) + [finishedAt]
      && t.saved == Some(t.Current())
    ensures var response := Trim(c.content);
      r == if CleanedLinks(response) == [] then Err(LinksPolicy(NoUrls(companyName, response))) else Ok(CleanedLinks(response))
  {
    var usage := t.TrackRequest(Tokens(c.promptTokens), Tokens(c.completionTokens), finishedAt, finishedOn);
    var response := Trim(c.content);
    var links := CleanedLinks(response);
    CleanedLinksShape(response);
    if links == [] {
      r := Err(LinksPolicy(NoUrls(companyName, response)));
    } else {
      r := Ok(links);
    }
  }
}
