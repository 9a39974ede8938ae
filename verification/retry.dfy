/**
 * `DealHubStream.request_decorator`: the wrapper around the SDK's request
 * function that, on a recognised failure, downgrades the request's feature
 * selector and retries once, and on a second recognised failure returns a
 * placeholder page instead of raising.
 *
 * `Handle` states the whole behaviour of one invocation as a value;
 * `RequestHandler` is the wrapper itself, over a request object whose URL it
 * rewrites in place, the wrapped function and the log.
 */
module Retry {
  import opened Json
  import opened Text
  import opened Http
  import opened Streams

  /** The feature selector of a full request. */
  const FULL_SELECTOR := "feature=all"

  /** Every sub-resource except approvals, which may reference deleted reviewers. */
  const REDUCED_SELECTOR := "feature=info" + "&feature=summary" + "&feature=deal_room_info" + "&feature=line_items" + "&feature=answers"

  /** The URL of the retry: every `feature=all` replaced by the reduced selector. */
  function Downgrade(url: string): (retryUrl: string) {
    Replace(url, FULL_SELECTOR, REDUCED_SELECTOR)
  }

  /** A URL without the full selector is retried as it is. */
  lemma DowngradeWithoutSelector(url: string)
    requires !Contains(url, FULL_SELECTOR)
    ensures Downgrade(url) == url
  {
    ReplaceAbsent(url, FULL_SELECTOR, REDUCED_SELECTOR);
  }

  /**
   * A URL whose only full selector is its last parameter keeps everything
   * before it and ends with the reduced selector.
   */
  lemma DowngradeFinalSelector(prefix: string)
    requires !Contains(prefix + "feature=al", FULL_SELECTOR)
    ensures Downgrade(prefix + FULL_SELECTOR) == prefix + REDUCED_SELECTOR
  {
    assert FULL_SELECTOR[..|FULL_SELECTOR| - 1] == "feature=al";
    ReplaceFinal(prefix, FULL_SELECTOR, REDUCED_SELECTOR);
  }

  /** The reduced selector never asks for approvals. */
  lemma ReducedOmitsApprovals()
    ensures !Contains(REDUCED_SELECTOR, "approvals")
  {
    assert "approvals"[5] == 'v';
    MissingCharExcludes(REDUCED_SELECTOR, "approvals", 'v');
  }

  /** The log records the wrapper writes, with the URL and exception they report. */
  datatype Event = Warning(url: string, cause: Exception) | Error(url: string, cause: Exception)

  /** The placeholder record: nothing but the primary key, set to "unknown". */
  function UnknownQuote(): (q: Json)
    ensures q.Obj? && q.fields.Keys == {ID_KEY} && q.fields[ID_KEY] == Str("unknown")
  {
    Obj(map[ID_KEY := Str("unknown")])
  }

  /**
   * The synthetic response of a skipped page: status 200, more results
   * announced, and exactly one record, the placeholder quote.
   */
  function Placeholder(): (r: Response)
    ensures r.status == 200
    ensures HasMore(r) == Found(Bool(true))
    ensures Records(r.body) == [UnknownQuote()]
  {
    Response(200, Envelope(true, [UnknownQuote()]))
  }

  /**
   * One invocation of the wrapper, as a value: what it returns or raises, the
   * URL left on the request, the log records written and the URL of every
   * call of the wrapped function, in order.
   */
  datatype Run = Run(outcome: Outcome, url: string, log: seq<Event>, sent: seq<string>)

  /**
   * The wrapper's behaviour for a request with URL `url`, when call number
   * `calls + k` of the wrapped function with URL `u` gives `respond(calls + k, u)`.
   */
  function Handle(url: string, respond: (nat, string) -> Outcome, calls: nat): (r: Run)
    // at most two calls, the first with the request as given
    ensures 1 <= |r.sent| <= 2 && r.sent[0] == url
    // a second call happens exactly when the first raised a recognised exception
    ensures |r.sent| == 2 <==> Caught(respond(calls, url))
    // a first call that returns, or raises anything else, is passed through untouched
    ensures |r.sent| == 1 ==> r.outcome == respond(calls, url) && r.url == url && r.log == []
    // the retry uses the downgraded URL, which stays on the request, after one warning naming the original URL
    ensures |r.sent| == 2 ==>
      && r.sent[1] == Downgrade(url) && r.url == Downgrade(url)
      && 1 <= |r.log| && r.log[0] == Warning(url, respond(calls, url).exception)
    // a retry that returns, or raises anything else, is passed through with no error logged
    ensures |r.sent| == 2 && !Caught(respond(calls + 1, Downgrade(url))) ==>
      r.outcome == respond(calls + 1, Downgrade(url)) && |r.log| == 1
    // a second recognised exception yields the placeholder and an error naming the downgraded URL
    ensures |r.sent| == 2 && Caught(respond(calls + 1, Downgrade(url))) ==>
      && r.outcome == Returned(Placeholder())
      && r.log == [Warning(url, respond(calls, url).exception), Error(Downgrade(url), respond(calls + 1, Downgrade(url)).exception)]
    // recognised exceptions never escape
    ensures r.outcome.Raised? ==> r.outcome.exception.cls !in RECOGNISED
    // an error is logged only after a warning, and at most one of each
    ensures |r.log| < |r.sent| || (|r.log| == 2 && r.log[0].Warning? && r.log[1].Error?)
  {
    var first := respond(calls, url);
    if !Caught(first) then
      Run(first, url, [], [url])
    else
      var warning := Warning(url, first.exception);
      var retryUrl := Downgrade(url);
      var second := respond(calls + 1, retryUrl);
      if !Caught(second) then
        Run(second, retryUrl, [warning], [url, retryUrl])
      else
        Run(Returned(Placeholder()), retryUrl, [warning, Error(retryUrl, second.exception)], [url, retryUrl])
  }

  /** The prepared request handed to the wrapped function; the wrapper rewrites its URL. */
  class PreparedRequest {
    var url: string

    constructor (url: string)
      ensures this.url == url
    {
      this.url := url;
    }
  }

  /**
   * The wrapped request function: `respond(n, u)` is what call number `n`
   * with URL `u` gives; `sent` lists the URL of every call made so far.
   */
  class Transport {
    const respond: (nat, string) -> Outcome
    var sent: seq<string>

    constructor (respond: (nat, string) -> Outcome)
      ensures this.respond == respond && sent == []
    {
      this.respond := respond;
      sent := [];
    }

    method Send(req: PreparedRequest) returns (o: Outcome)
      modifies this
      ensures o == respond(|old(sent)|, req.url)
      ensures sent == old(sent) + [req.url]
    {
      o := respond(|sent|, req.url);
      sent := sent + [req.url];
    }
  }

  /** The log, as the sequence of records written to it. */
  class Logger {
    var events: seq<Event>

    constructor ()
      ensures events == []
    {
      events := [];
    }

    method Warn(url: string, cause: Exception)
      modifies this
      ensures events == old(events) + [Warning(url, cause)]
    {
      events := events + [Warning(url, cause)];
    }

    method Err(url: string, cause: Exception)
      modifies this
      ensures events == old(events) + [Error(url, cause)]
    {
      events := events + [Error(url, cause)];
    }
  }

  /**
   * `request_handler`: call the wrapped function; on a recognised exception
   * warn, downgrade the URL in place and call it again; on a second recognised
   * exception log an error and return the placeholder.
   */
  method RequestHandler(func: Transport, req: PreparedRequest, log: Logger) returns (outcome: Outcome)
    modifies func, req, log
    ensures var run := Handle(old(req.url), func.respond, |old(func.sent)|);
      && outcome == run.outcome
      && req.url == run.url
      && log.events == old(log.events) + run.log
      && func.sent == old(func.sent) + run.sent
  {
    outcome := func.Send(req);
    if Caught(outcome) {
      log.Warn(req.url, outcome.exception);
      req.url := Downgrade(req.url);
      outcome := func.Send(req);
      if Caught(outcome) {
        log.Err(req.url, outcome.exception);
        outcome := Returned(Placeholder());
      }
    }
  }
}
