/**
 * The paging loop that drives the stream. The loop itself belongs to the SDK
 * the stream is built on and is not part of this repository; it is modelled
 * here under stated assumptions so that the wrapper can be seen in use:
 * page requests are made one at a time, the records of a page are emitted
 * before the paginator looks at its more-results flag, and the offset
 * advances by the page size. The model stops after a given number of pages.
 */
module Driver {
  import opened Wrappers
  import opened Json
  import opened Params
  import opened Http
  import opened Streams
  import opened Retry

  /** How an extraction ends. */
  datatype End =
    | Exhausted                     // a page reported no further results
    | Aborted(exception: Exception) // an exception escaped the wrapper
    | Malformed(error: LookupError) // reading the more-results flag raised
    | PageLimit                     // the page budget of the model ran out

  /**
   * An extraction: the offset of every page requested, the records emitted,
   * the log, the URL of every call of the request function, and how it ended.
   */
  datatype Extraction = Extraction(offsets: seq<int>, records: seq<Json>, log: seq<Event>, sent: seq<string>, end: End)

  /** The SDK's offset advance, an assumption of this model: the next offset is the current one plus the page size. */
  function Advance(p: Paginator): (q: Paginator)
    ensures q.current == p.current + p.pageSize && q.pageSize == p.pageSize
  {
    Paginator(p.current + p.pageSize, p.pageSize)
  }

  /** The result of one page: what it emitted and logged, the calls it made, and whether the run goes on. */
  datatype Page = Page(records: seq<Json>, log: seq<Event>, sent: seq<string>, stop: Option<End>)

  /**
   * A page skipped by the wrapper: the placeholder quote, the run goes on,
   * two calls, and a warning naming the first call's URL followed by an
   * error naming the retry's URL.
   */
  ghost predicate Skipped(pg: Page) {
    && pg.records == [UnknownQuote()] && pg.stop == None
    && |pg.sent| == 2 && |pg.log| == 2
    && pg.log[0].Warning? && pg.log[0].url == pg.sent[0]
    && pg.log[1].Error? && pg.log[1].url == pg.sent[1]
  }

  /** The URL of the quotes request at the paginator's offset. */
  function PageUrl(cfg: Config, prepare: Dict -> string, p: Paginator): (url: string) {
    prepare(QuotesUrlParams(cfg, Int(p.current)))
  }

  /**
   * One page request of the quotes stream at the paginator's offset, through
   * the wrapper, when `calls` calls of the request function have been made
   * before. `prepare` turns query parameters into the request URL (the SDK's
   * job, outside this model). A returned response gives the records of its
   * body, and the run goes on exactly when its more-results flag is truthy.
   */
  function FetchPage(cfg: Config, prepare: Dict -> string, respond: (nat, string) -> Outcome,
                     p: Paginator, calls: nat): (pg: Page)
    // the page logs and calls what the wrapper does
    ensures var run := Handle(PageUrl(cfg, prepare, p), respond, calls);
      && pg.log == run.log && pg.sent == run.sent
      // an exception that escapes the wrapper aborts the run with no records
      && (run.outcome.Raised? ==> pg.records == [] && pg.stop == Some(Aborted(run.outcome.exception)))
      // a returned response: its quotes are emitted, then its flag decides
      && (run.outcome.Returned? ==>
            var resp := run.outcome.response;
            && pg.records == Records(resp.body)
            && (pg.stop == None <==> HasMore(resp).Found? && Truthy(HasMore(resp).value))
            && (HasMore(resp).Found? && !Truthy(HasMore(resp).value) ==> pg.stop == Some(Exhausted))
            && (HasMore(resp).Missing? ==> pg.stop == Some(Malformed(HasMore(resp).error))))
    ensures 1 <= |pg.sent| <= 2
    ensures pg.stop != Some(PageLimit)
    ensures pg.stop.Some? && pg.stop.value.Aborted? ==> pg.stop.value.exception.cls !in RECOGNISED
    // when every call fails with a recognised exception, the page is skipped and the run goes on
    ensures (forall n, u :: Caught(respond(n, u))) ==> Skipped(pg)
  {
    var run := Handle(PageUrl(cfg, prepare, p), respond, calls);
    if run.outcome.Raised? then
      Page([], run.log, run.sent, Some(Aborted(run.outcome.exception)))
    else
      var recs := Records(run.outcome.response.body);
      match HasMore(run.outcome.response)
      case Missing(e) => Page(recs, run.log, run.sent, Some(Malformed(e)))
      case Found(flag) => Page(recs, run.log, run.sent, if Truthy(flag) then None else Some(Exhausted))
  }

  /** The page function of the quotes stream. */
  function QuotesPages(cfg: Config, prepare: Dict -> string, respond: (nat, string) -> Outcome): (fetch: (Paginator, nat) -> Page) {
    (p: Paginator, calls: nat) => FetchPage(cfg, prepare, respond, p, calls)
  }

  /**
   * The paging loop: at most `pages` pages, the first at paginator `p`, where
   * `fetch(q, calls)` is the page at paginator `q` after `calls` calls of the
   * request function.
   */
  function Extract(fetch: (Paginator, nat) -> Page, p: Paginator, calls: nat, pages: nat): (x: Extraction)
    decreases pages
  {
    if pages == 0 then Extraction([], [], [], [], PageLimit)
    else
      var pg := fetch(p, calls);
      if pg.stop.Some? then
        Extraction([p.current], pg.records, pg.log, pg.sent, pg.stop.value)
      else
        Splice([p.current], pg.records, pg.log, pg.sent, Extract(fetch, Advance(p), calls + |pg.sent|, pages - 1))
  }

  /** What was gathered so far, followed by the rest of the extraction. */
  function Splice(offsets: seq<int>, records: seq<Json>, log: seq<Event>, sent: seq<string>, rest: Extraction): (x: Extraction) {
    Extraction(offsets + rest.offsets, records + rest.records, log + rest.log, sent + rest.sent, rest.end)
  }

  /** The n-th page (from 0) is requested at offset `p.current + n * pageSize`, and no more pages than the budget. */
  lemma {:induction false} ExtractOffsets(fetch: (Paginator, nat) -> Page, p: Paginator, calls: nat, pages: nat)
    ensures var x := Extract(fetch, p, calls, pages);
      && |x.offsets| <= pages
      && forall i :: 0 <= i < |x.offsets| ==> x.offsets[i] == p.current + i * p.pageSize
    decreases pages
  {
    if pages > 0 {
      var q := Advance(p);
      var pg := fetch(p, calls);
      var x := Extract(fetch, p, calls, pages);
      if pg.stop == None {
        var rest := Extract(fetch, q, calls + |pg.sent|, pages - 1);
        ExtractOffsets(fetch, q, calls + |pg.sent|, pages - 1);
        assert x.offsets == [p.current] + rest.offsets;
        forall i | 1 <= i < |x.offsets|
          ensures x.offsets[i] == p.current + i * p.pageSize
        {
          calc {
            x.offsets[i];
            rest.offsets[i - 1];
            q.current + (i - 1) * p.pageSize;
            { assert (i - 1) * p.pageSize == i * p.pageSize - p.pageSize; }
            p.current + i * p.pageSize;
          }
        }
      }
    }
  }

  /** The guarantees of a single page that the loop builds on. */
  ghost predicate PageContract(fetch: (Paginator, nat) -> Page) {
    forall q, c :: && 1 <= |fetch(q, c).sent| <= 2
                   && fetch(q, c).stop != Some(PageLimit)
                   && (fetch(q, c).stop.Some? && fetch(q, c).stop.value.Aborted? ==>
                         fetch(q, c).stop.value.exception.cls !in RECOGNISED)
  }

  lemma QuotesPagesContract(cfg: Config, prepare: Dict -> string, respond: (nat, string) -> Outcome)
    ensures PageContract(QuotesPages(cfg, prepare, respond))
  {
  }

  /**
   * Every page makes one or two calls of the request function, the budget
   * ends the run only when all of it was used, and a recognised exception
   * never ends it: only other exceptions abort the run.
   */
  lemma {:induction false} ExtractCalls(fetch: (Paginator, nat) -> Page, p: Paginator, calls: nat, pages: nat)
    requires PageContract(fetch)
    ensures var x := Extract(fetch, p, calls, pages);
      && |x.offsets| <= |x.sent| <= 2 * |x.offsets|
      && (x.end == PageLimit ==> |x.offsets| == pages)
      && (x.end.Aborted? ==> x.end.exception.cls !in RECOGNISED)
    decreases pages
  {
    if pages > 0 {
      var pg := fetch(p, calls);
      if pg.stop == None {
        ExtractCalls(fetch, Advance(p), calls + |pg.sent|, pages - 1);
      }
    }
  }

  /** From a new paginator, page n of the quotes stream is requested at offset n * page_size. */
  lemma StartOffsets(cfg: Config, prepare: Dict -> string, respond: (nat, string) -> Outcome, pages: nat)
    ensures var x := Extract(QuotesPages(cfg, prepare, respond), NewPaginator(cfg), 0, pages);
      forall i :: 0 <= i < |x.offsets| ==> x.offsets[i] == i * cfg.pageSize
  {
    ExtractOffsets(QuotesPages(cfg, prepare, respond), NewPaginator(cfg), 0, pages);
  }

  /**
   * A page function that always skips its page never reaches the end of the
   * data: every page adds the placeholder quote and two calls, and the log
   * alternates warning and error, each naming the URL of the call at the
   * same position.
   */
  lemma {:induction false} PlaceholdersFillBudget(fetch: (Paginator, nat) -> Page, p: Paginator, calls: nat, pages: nat)
    requires forall q, c :: Skipped(fetch(q, c))
    ensures var x := Extract(fetch, p, calls, pages);
      && x.end == PageLimit
      && x.records == seq(pages, _ => UnknownQuote())
      && |x.sent| == 2 * pages && |x.log| == 2 * pages
      && forall j :: 0 <= j < |x.log| ==> (x.log[j].Warning? <==> j % 2 == 0) && x.log[j].url == x.sent[j]
    decreases pages
  {
    if pages > 0 {
      var pg := fetch(p, calls);
      assert Skipped(pg);
      var rest := Extract(fetch, Advance(p), calls + |pg.sent|, pages - 1);
      PlaceholdersFillBudget(fetch, Advance(p), calls + |pg.sent|, pages - 1);
      var x := Extract(fetch, p, calls, pages);
      assert x.records == [UnknownQuote()] + seq(pages - 1, _ => UnknownQuote());
      assert x.log == pg.log + rest.log && x.sent == pg.sent + rest.sent;
      forall j | 2 <= j < |x.log|
        ensures (x.log[j].Warning? <==> j % 2 == 0) && x.log[j].url == x.sent[j]
      {
        assert x.log[j] == rest.log[j - 2] && x.sent[j] == rest.sent[j - 2];
        assert (j - 2) % 2 == j % 2;
      }
    }
  }

  /**
   * The forced more-results flag of the placeholder: when every call fails
   * with a recognised exception the quotes stream never reaches the end of
   * the data. Each page emits the placeholder quote and makes two calls,
   * and the log is a warning then an error per page, until the budget runs out.
   */
  lemma FailingSourceNeverExhausts(cfg: Config, prepare: Dict -> string, respond: (nat, string) -> Outcome, pages: nat)
    requires forall n, u :: Caught(respond(n, u))
    ensures var x := Extract(QuotesPages(cfg, prepare, respond), NewPaginator(cfg), 0, pages);
      && x.end == PageLimit
      && x.records == seq(pages, _ => UnknownQuote())
      && |x.sent| == 2 * pages && |x.log| == 2 * pages
      && forall j :: 0 <= j < |x.log| ==> (x.log[j].Warning? <==> j % 2 == 0) && x.log[j].url == x.sent[j]
  {
    PlaceholdersFillBudget(QuotesPages(cfg, prepare, respond), NewPaginator(cfg), 0, pages);
  }

  /** A page request of the loop: the paginator, the calls made before it, and the page it got. */
  datatype Request = Request(at: Paginator, calls: nat, page: Page)

  /** The page requests the loop makes, in order: it stops after the first page that ends the run. */
  function Fetched(fetch: (Paginator, nat) -> Page, p: Paginator, calls: nat, pages: nat): (rs: seq<Request>)
    decreases pages
  {
    if pages == 0 then []
    else
      var pg := fetch(p, calls);
      if pg.stop.Some? then [Request(p, calls, pg)]
      else [Request(p, calls, pg)] + Fetched(fetch, Advance(p), calls + |pg.sent|, pages - 1)
  }

  /** The records of the requests' pages, in order. */
  function RecordsOf(rs: seq<Request>): (records: seq<Json>) {
    if rs == [] then [] else rs[0].page.records + RecordsOf(rs[1..])
  }

  /** The log records of the requests' pages, in order. */
  function LogOf(rs: seq<Request>): (log: seq<Event>) {
    if rs == [] then [] else rs[0].page.log + LogOf(rs[1..])
  }

  /** The calls of the requests' pages, in order. */
  function SentOf(rs: seq<Request>): (sent: seq<string>) {
    if rs == [] then [] else rs[0].page.sent + SentOf(rs[1..])
  }

  /** Request `next` comes right after request `r`: `r` let the run go on, and `next` is at the advanced paginator after `r`'s calls. */
  ghost predicate Follows(r: Request, next: Request) {
    && r.page.stop == None
    && next.at == Advance(r.at)
    && next.calls == r.calls + |r.page.sent|
  }

  /** Each request is followed by the next one. */
  ghost predicate Chained(rs: seq<Request>) {
    forall i, j :: 0 <= i && j == i + 1 && j < |rs| ==> Follows(rs[i], rs[j])
  }

  /**
   * The requests of a run follow one another: the first is at the start
   * paginator after `calls` calls; each one got the page the page function
   * gives for its paginator and call count; and each next one is at the
   * advanced paginator, after the calls of the one before, which let the
   * run go on.
   */
  lemma {:induction false} FetchedChain(fetch: (Paginator, nat) -> Page, p: Paginator, calls: nat, pages: nat)
    ensures var rs := Fetched(fetch, p, calls, pages);
      && |rs| <= pages
      && (rs != [] ==> rs[0].at == p && rs[0].calls == calls)
      && (forall i :: 0 <= i < |rs| ==> rs[i].page == fetch(rs[i].at, rs[i].calls))
      && Chained(rs)
    decreases pages
  {
    if pages > 0 {
      var pg := fetch(p, calls);
      if pg.stop == None {
        var q, c := Advance(p), calls + |pg.sent|;
        var qs := Fetched(fetch, q, c, pages - 1);
        FetchedChain(fetch, q, c, pages - 1);
        var rs := Fetched(fetch, p, calls, pages);
        assert rs == [Request(p, calls, pg)] + qs;
        forall i, j | 0 <= i && j == i + 1 && j < |rs|
          ensures Follows(rs[i], rs[j])
        {
          assert rs[j] == qs[j - 1];
          if i > 0 {
            assert rs[i] == qs[i - 1];
          }
        }
      }
    }
  }

  /** An extraction makes one request per offset, at that offset. */
  lemma {:induction false} ExtractRequests(fetch: (Paginator, nat) -> Page, p: Paginator, calls: nat, pages: nat)
    ensures var x, rs := Extract(fetch, p, calls, pages), Fetched(fetch, p, calls, pages);
      && |rs| == |x.offsets|
      && forall i :: 0 <= i < |rs| ==> rs[i].at.current == x.offsets[i]
    decreases pages
  {
    if pages > 0 {
      var pg := fetch(p, calls);
      if pg.stop == None {
        var q, c := Advance(p), calls + |pg.sent|;
        var qs := Fetched(fetch, q, c, pages - 1);
        ExtractRequests(fetch, q, c, pages - 1);
        var rs := Fetched(fetch, p, calls, pages);
        assert rs == [Request(p, calls, pg)] + qs;
        var x, rest := Extract(fetch, p, calls, pages), Extract(fetch, q, c, pages - 1);
        assert x.offsets == [p.current] + rest.offsets;
        forall i | 1 <= i < |rs| ensures rs[i].at.current == x.offsets[i] {
          assert rs[i] == qs[i - 1];
        }
      }
    }
  }

  /**
   * An extraction emits the records, writes the log and makes the calls of
   * its requests' pages, in order.
   */
  lemma {:induction false} ExtractTrace(fetch: (Paginator, nat) -> Page, p: Paginator, calls: nat, pages: nat)
    ensures var x, rs := Extract(fetch, p, calls, pages), Fetched(fetch, p, calls, pages);
      x.records == RecordsOf(rs) && x.log == LogOf(rs) && x.sent == SentOf(rs)
    decreases pages
  {
    if pages > 0 {
      var pg := fetch(p, calls);
      var rs := Fetched(fetch, p, calls, pages);
      if pg.stop == None {
        var q, c := Advance(p), calls + |pg.sent|;
        ExtractTrace(fetch, q, c, pages - 1);
        assert rs[1..] == Fetched(fetch, q, c, pages - 1);
      } else {
        assert rs[1..] == [];
      }
    }
  }

  /**
   * An extraction ends as the last page it fetched said, or at the budget
   * when that page too let the run go on.
   */
  lemma {:induction false} ExtractEnd(fetch: (Paginator, nat) -> Page, p: Paginator, calls: nat, pages: nat)
    ensures var x, rs := Extract(fetch, p, calls, pages), Fetched(fetch, p, calls, pages);
      x.end == (if rs != [] && rs[|rs| - 1].page.stop.Some? then rs[|rs| - 1].page.stop.value else PageLimit)
    decreases pages
  {
    if pages > 0 {
      var pg := fetch(p, calls);
      if pg.stop == None {
        var q, c := Advance(p), calls + |pg.sent|;
        var qs := Fetched(fetch, q, c, pages - 1);
        ExtractEnd(fetch, q, c, pages - 1);
        var rs := Fetched(fetch, p, calls, pages);
        assert rs == [Request(p, calls, pg)] + qs;
        if qs != [] {
          assert rs[|rs| - 1] == qs[|qs| - 1];
        }
      }
    }
  }

  /** The configuration of the example run: page size 2. */
  function ExampleConfig(): (cfg: Config) {
    Config("https://api.dealhub.io", "token", 2, "none")
  }

  /**
   * The responses of the example run: the first call returns quotes `a` and
   * `b` with more results, the next two calls raise `e`, and every later call
   * returns quote `d` with no more results.
   */
  function ExampleResponses(a: Json, b: Json, d: Json, e: Exception): (respond: (nat, string) -> Outcome) {
    (n: nat, u: string) =>
      if n == 0 then Returned(Response(200, Envelope(true, [a, b])))
      else if n <= 2 then Raised(e)
      else Returned(Response(200, Envelope(false, [d])))
  }

  /** The first page of the example: both quotes, one call, and the run goes on. */
  lemma ExampleFirstPage(prepare: Dict -> string, a: Json, b: Json, d: Json, e: Exception)
    ensures var pg := FetchPage(ExampleConfig(), prepare, ExampleResponses(a, b, d, e), Paginator(0, 2), 0);
      pg.records == [a, b] && pg.log == [] && |pg.sent| == 1 && pg.stop == None
  {
    var url := PageUrl(ExampleConfig(), prepare, Paginator(0, 2));
    assert ExampleResponses(a, b, d, e)(0, url) == Returned(Response(200, Envelope(true, [a, b])));
  }

  /** The second page of the example: both calls fail, so the page is skipped with the placeholder. */
  lemma ExampleSkippedPage(prepare: Dict -> string, a: Json, b: Json, d: Json, e: Exception)
    requires e.cls in RECOGNISED
    ensures Skipped(FetchPage(ExampleConfig(), prepare, ExampleResponses(a, b, d, e), Paginator(2, 2), 1))
  {
    var respond := ExampleResponses(a, b, d, e);
    var url := PageUrl(ExampleConfig(), prepare, Paginator(2, 2));
    assert respond(1, url) == Raised(e) && respond(2, Downgrade(url)) == Raised(e);
  }

  /** The third page of the example: the last quote, one call, and no more results. */
  lemma ExampleLastPage(prepare: Dict -> string, a: Json, b: Json, d: Json, e: Exception)
    ensures var pg := FetchPage(ExampleConfig(), prepare, ExampleResponses(a, b, d, e), Paginator(4, 2), 3);
      pg.records == [d] && pg.log == [] && |pg.sent| == 1 && pg.stop == Some(Exhausted)
  {
    var url := PageUrl(ExampleConfig(), prepare, Paginator(4, 2));
    assert ExampleResponses(a, b, d, e)(3, url) == Returned(Response(200, Envelope(false, [d])));
  }

  /** The example's three pages, composed by the loop for any page function that gives them. */
  lemma ThreePages(fetch: (Paginator, nat) -> Page, a: Json, b: Json, d: Json)
    requires var pg := fetch(Paginator(0, 2), 0);
      pg.records == [a, b] && pg.log == [] && |pg.sent| == 1 && pg.stop == None
    requires Skipped(fetch(Paginator(2, 2), 1))
    requires var pg := fetch(Paginator(4, 2), 3);
      pg.records == [d] && pg.log == [] && |pg.sent| == 1 && pg.stop == Some(Exhausted)
    ensures var x := Extract(fetch, Paginator(0, 2), 0, 10);
      && x.offsets == [0, 2, 4]
      && x.records == [a, b, UnknownQuote(), d]
      && |x.sent| == 4 && |x.log| == 2 && x.log[0].Warning? && x.log[1].Error?
      && x.end == Exhausted
  {
    var pg0, pg1, pg2 := fetch(Paginator(0, 2), 0), fetch(Paginator(2, 2), 1), fetch(Paginator(4, 2), 3);
    var x2 := Extract(fetch, Paginator(4, 2), 3, 8);
    var x1 := Extract(fetch, Paginator(2, 2), 1, 9);
    var x0 := Extract(fetch, Paginator(0, 2), 0, 10);
    assert x2 == Extraction([4], [d], [], pg2.sent, Exhausted);
    assert x1 == Splice([2], pg1.records, pg1.log, pg1.sent, x2);
    assert x0 == Splice([0], pg0.records, pg0.log, pg0.sent, x1);
  }

  /**
   * A run with page size 2: the first page returns quotes A and B with more
   * results, both calls for the second page fail with a recognised
   * exception, and the third page returns quote D with no more results. The
   * second page is skipped with the placeholder, and the run ends by
   * exhaustion after three pages and four calls, with a warning and an error.
   */
  lemma SkippedPageExample(prepare: Dict -> string, a: Json, b: Json, d: Json, e: Exception)
    requires e.cls in RECOGNISED
    ensures var x := Extract(QuotesPages(ExampleConfig(), prepare, ExampleResponses(a, b, d, e)), NewPaginator(ExampleConfig()), 0, 10);
      && x.offsets == [0, 2, 4]
      && x.records == [a, b, UnknownQuote(), d]
      && |x.sent| == 4 && |x.log| == 2 && x.log[0].Warning? && x.log[1].Error?
      && x.end == Exhausted
  {
    ExampleFirstPage(prepare, a, b, d, e);
    ExampleSkippedPage(prepare, a, b, d, e);
    ExampleLastPage(prepare, a, b, d, e);
    ThreePages(QuotesPages(ExampleConfig(), prepare, ExampleResponses(a, b, d, e)), a, b, d);
  }

  /**
   * One page of the loop over the real wrapper: a fresh prepared request at
   * the paginator's offset, the wrapped call, the page's records and its
   * more-results flag.
   */
  method RunPage(cfg: Config, prepare: Dict -> string, func: Transport, log: Logger, p: Paginator)
    returns (pg: Page)
    modifies func, log
    ensures pg == FetchPage(cfg, prepare, func.respond, p, |old(func.sent)|)
    ensures log.events == old(log.events) + pg.log && func.sent == old(func.sent) + pg.sent
  {
    var logged, called := |log.events|, |func.sent|;
    var req := new PreparedRequest(PageUrl(cfg, prepare, p));
    var outcome := RequestHandler(func, req, log);
    var events, sent := log.events[logged..], func.sent[called..];
    if outcome.Raised? {
      return Page([], events, sent, Some(Aborted(outcome.exception)));
    }
    var records := Records(outcome.response.body);
    var more := HasMore(outcome.response);
    if more.Missing? {
      pg := Page(records, events, sent, Some(Malformed(more.error)));
    } else if Truthy(more.value) {
      pg := Page(records, events, sent, None);
    } else {
      pg := Page(records, events, sent, Some(Exhausted));
    }
  }
}
