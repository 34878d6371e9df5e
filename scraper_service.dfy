/**
 * The fast tier of the fetch cascade (services/scraperService.js): an HTTP
 * GET whose body text is normalised and must reach 100 characters, and the
 * mapping of everything that can go wrong to one error, checked in a fixed
 * order. The HTTP client is not modelled; its outcome is the input, and
 * the body text is what remains after the unwanted elements are removed.
 */
module ScraperService {
  import opened Wrappers
  import opened Text

  // ---------------------------------------------------------------------
  // Whitespace normalisation
  // ---------------------------------------------------------------------

  /** `.replace(/\s+/g, ' ')`: every maximal run of white space becomes one space. */
  function Collapse(s: string): (r: string)
    ensures s == [] <==> r == []
    ensures s != [] && !IsSpace(s[0]) ==> r[0] == s[0]
    ensures s != [] && IsSpace(s[0]) ==> r[0] == ' '
    ensures forall k :: 0 <= k < |r| && IsSpace(r[k]) ==> r[k] == ' '
    ensures forall k :: 0 <= k < |r| - 1 ==> !(IsSpace(r[k]) && IsSpace(r[k + 1]))
    decreases |s|
  {
    if s == [] then []
    else if IsSpace(s[0]) then
      var rest := TrimStart(s);
      assert |rest| < |s| by { assert EndsWith(s, rest); }
      [' '] + Collapse(rest)
    else
      [s[0]] + Collapse(s[1..])
  }

  /** The characters of `s` that are not white space, in order. */
  function NonSpace(s: string): string {
    if s == [] then [] else (if IsSpace(s[0]) then [] else [s[0]]) + NonSpace(s[1..])
  }

  lemma {:induction false} NonSpaceConcat(a: string, b: string)
    ensures NonSpace(a + b) == NonSpace(a) + NonSpace(b)
  {
    if a != [] {
      assert (a + b)[1..] == a[1..] + b;
      NonSpaceConcat(a[1..], b);
    } else {
      assert a + b == b;
    }
  }

  lemma {:induction false} NonSpaceOfSpaces(s: string)
    requires forall k :: 0 <= k < |s| ==> IsSpace(s[k])
    ensures NonSpace(s) == []
  {
    if s != [] {
      NonSpaceOfSpaces(s[1..]);
    }
  }

  /** Collapsing changes only white space: the other characters are kept, in order. */
  lemma {:induction false} CollapseKeepsText(s: string)
    ensures NonSpace(Collapse(s)) == NonSpace(s)
    decreases |s|
  {
    if s != [] {
      if IsSpace(s[0]) {
        var rest := TrimStart(s);
        assert EndsWith(s, rest);
        CollapseKeepsText(rest);
        assert s == s[..|s| - |rest|] + rest;
        NonSpaceOfSpaces(s[..|s| - |rest|]);
        NonSpaceConcat(s[..|s| - |rest|], rest);
        assert Collapse(s) == [' '] + Collapse(rest);
        NonSpaceConcat([' '], Collapse(rest));
      } else {
        CollapseKeepsText(s[1..]);
        assert Collapse(s) == [s[0]] + Collapse(s[1..]);
        NonSpaceConcat([s[0]], Collapse(s[1..]));
      }
    }
  }

  /**
   * The body text as sent on: white-space runs collapsed, then trimmed.
   * The second replacement of the source (runs of newlines) finds no
   * newline left after the first, so it is the identity and not written.
   */
  function Normalize(text: string): string {
    Trim(Collapse(text))
  }

  /** No two white-space characters in a row, and every white space a plain space. */
  predicate SingleSpaced(s: string) {
    && (forall k :: 0 <= k < |s| && IsSpace(s[k]) ==> s[k] == ' ')
    && (forall k :: 0 <= k < |s| - 1 ==> !(IsSpace(s[k]) && IsSpace(s[k + 1])))
  }

  /** Single spacing holds on every infix. */
  lemma SingleSpacedInfix(s: string, i: nat, j: nat)
    requires i <= j <= |s| && SingleSpaced(s)
    ensures SingleSpaced(s[i..j])
  {
    assert forall k :: 0 <= k < j - i ==> s[i..j][k] == s[i + k];
  }

  /** Trimming keeps single spacing. */
  lemma TrimSingleSpaced(s: string)
    requires SingleSpaced(s)
    ensures SingleSpaced(Trim(s))
  {
    var i := TrimInfix(s);
    SingleSpacedInfix(s, i, i + |Trim(s)|);
  }

  /** Trimming removes white space only. */
  lemma TrimKeepsText(s: string)
    ensures NonSpace(Trim(s)) == NonSpace(s)
  {
    var r := Trim(s);
    var i := TrimInfix(s);
    var pre := s[..i];
    var post := s[i + |r|..];
    assert s == pre + r + post;
    NonSpaceOfSpaces(pre);
    NonSpaceOfSpaces(post);
    NonSpaceConcat(pre, r);
    NonSpaceConcat(pre + r, post);
  }

  /** Normalised text is single-spaced and has no white space at either end. */
  lemma NormalizeSingleSpaced(text: string)
    ensures SingleSpaced(Normalize(text))
    ensures Normalize(text) == [] || (!IsSpace(Normalize(text)[0]) && !IsSpace(Normalize(text)[|Normalize(text)| - 1]))
  {
    TrimSingleSpaced(Collapse(text));
  }

  /** Normalisation keeps every character that is not white space, in order. */
  lemma NormalizeKeepsText(text: string)
    ensures NonSpace(Normalize(text)) == NonSpace(text)
  {
    CollapseKeepsText(text);
    TrimKeepsText(Collapse(text));
  }

  /** A newline never survives normalisation. */
  lemma NormalizeHasNoNewline(text: string)
    ensures '\n' !in Normalize(text)
  {
    NormalizeSingleSpaced(text);
  }

  // ---------------------------------------------------------------------
  // The request and its errors
  // ---------------------------------------------------------------------

  /** `validateStatus`: statuses from 200 to 399 are answers, the rest are errors. */
  predicate AcceptedStatus(status: int) {
    200 <= status < 400
  }

  /** An error raised by the HTTP client: its code, the status of the response if there was one, its message. */
  datatype Failure = Failure(code: string, response: Option<int>, message: string)

  /** What the request gives: an answer with its status and body text, or a client failure. */
  datatype HttpOutcome = Response(status: int, bodyText: string) | Failed(failure: Failure)

  /** What reaches the error handler: a client failure, or the body that was too short. */
  datatype Thrown = Client(failure: Failure) | ContentTooShort(length: nat)

  /** The error `scrapeWebsite` raises. */
  datatype ScrapeError =
    | DomainNotFound
    | Timeout
    | ConnectionRefused
    | Forbidden
    | PageNotFound
    | TooManyRequests
    | ServerError(status: int)
    | HttpError(status: int)
    | Other(cause: Thrown)

  /** The client's code for a status outside the accepted range. */
  function RejectionCode(status: int): string {
    if status >= 500 then "ERR_BAD_RESPONSE" else "ERR_BAD_REQUEST"
  }

  /** The error handler: network codes first, then the response status, then anything else. */
  function Classify(t: Thrown): ScrapeError {
    match t
    case ContentTooShort(_) => Other(t)
    case Client(f) =>
      if f.code == "ENOTFOUND" then DomainNotFound
      else if f.code == "ETIMEDOUT" || f.code == "ECONNABORTED" then Timeout
      else if f.code == "ECONNREFUSED" then ConnectionRefused
      else match f.response
        case None => Other(t)
        case Some(status) =>
          if status == 403 then Forbidden
          else if status == 404 then PageNotFound
          else if status == 429 then TooManyRequests
          else if status >= 500 then ServerError(status)
          else HttpError(status)
  }

  const MinContentLength := 100

  /** `scrapeWebsite`: the normalised body text, or the classified error. */
  function ScrapeWebsite(outcome: HttpOutcome): (r: Result<string, ScrapeError>)
    ensures r.Ok? ==> outcome.Response? && AcceptedStatus(outcome.status)
    ensures r.Ok? ==> |r.value| >= MinContentLength && r.value == Normalize(outcome.bodyText)
  {
    match outcome
    case Failed(f) => Err(Classify(Client(f)))
    case Response(status, body) =>
      if !AcceptedStatus(status) then
        Err(Classify(Client(Failure(RejectionCode(status), Some(status), "Request failed"))))
      else
        var text := Normalize(body);
        if text == [] || |text| < MinContentLength then Err(Classify(ContentTooShort(|text|)))
        else Ok(text)
  }

  /** A network code decides the error whatever the response says. */
  lemma CodesBeforeStatus(f: Failure)
    ensures f.code == "ENOTFOUND" ==> Classify(Client(f)) == DomainNotFound
    ensures f.code == "ETIMEDOUT" || f.code == "ECONNABORTED" ==> Classify(Client(f)) == Timeout
    ensures f.code == "ECONNREFUSED" ==> Classify(Client(f)) == ConnectionRefused
  {
  }

  /** Without a network code and with a response, each status class has its own error. */
  lemma StatusClasses(f: Failure)
    requires f.code !in {"ENOTFOUND", "ETIMEDOUT", "ECONNABORTED", "ECONNREFUSED"}
    requires f.response.Some?
    ensures var s := f.response.value;
      Classify(Client(f)) ==
        if s == 403 then Forbidden
        else if s == 404 then PageNotFound
        else if s == 429 then TooManyRequests
        else if s >= 500 then ServerError(s)
        else HttpError(s)
  {
  }

  /** A rejected status is reported through the status rules, never as a network error. */
  lemma RejectedStatusReportedByStatus(status: int, body: string)
    requires !AcceptedStatus(status)
    ensures ScrapeWebsite(Response(status, body)).Err?
    ensures var e := ScrapeWebsite(Response(status, body)).error;
      e.Forbidden? || e.PageNotFound? || e.TooManyRequests? || e.ServerError? || e.HttpError?
  {
  }

  /** Short text, and a failure with neither a known code nor a response, end up as the generic error. */
  lemma GenericErrors(length: nat, f: Failure)
    ensures Classify(ContentTooShort(length)) == Other(ContentTooShort(length))
    ensures f.code !in {"ENOTFOUND", "ETIMEDOUT", "ECONNABORTED", "ECONNREFUSED"} && f.response.None? ==>
      Classify(Client(f)) == Other(Client(f))
  {
  }

  /** An accepted answer succeeds exactly when its normalised text reaches 100 characters. */
  lemma AcceptedAnswerSucceedsIffLongEnough(status: int, body: string)
    requires AcceptedStatus(status)
    ensures ScrapeWebsite(Response(status, body)).Ok? <==> |Normalize(body)| >= MinContentLength
    ensures ScrapeWebsite(Response(status, body)).Err? ==>
      ScrapeWebsite(Response(status, body)).error == Other(ContentTooShort(|Normalize(body)|))
  {
  }
}
