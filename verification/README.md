# DealHub tap: the degrade-and-retry request wrapper

This project is a Dafny model of the resilient-fetch core of `tap-dealhub`. That tool is a Singer tap. It pages through
the DealHub quotes endpoint (`/api/v2/quotes`) with an offset paginator and emits every quote as a record. The
core is `DealHubStream.request_decorator` in `tap_dealhub/streams.py`. It wraps the SDK's request function, and a
request that fails with one of seven recognised exception classes goes through these states:

1. A warning is logged.
2. The request URL is rewritten in place: `feature=all` is replaced by the explicit list
   `feature=info&feature=summary&feature=deal_room_info&feature=line_items&feature=answers`. That list leaves out
   approvals, which fail for quotes whose approvers were deleted.
3. The request is sent once more.
4. If that also fails with a recognised class, an error is logged. The wrapper then returns a synthetic 200 response.
   That response announces more results and holds one placeholder quote, `{"dealhub_quote_id": "unknown"}`.

Any other exception escapes.

Around the wrapper sit a few pure pieces:
- the more-results flag read by `DealHubPaginator.has_more`;
- the paginator the stream creates, which starts at offset 0 with the configured page size;
- the query parameters `limit`, `offset` and `feature=all`;
- the lookup of the type-conformance setting.

Modules:

- `Json` holds decoded JSON values, Python's `value[key]` (which raises KeyError or TypeError) and truthiness.
- `Text` holds Python's substring test and `str.replace`.
- `Params` holds query parameters as an insertion-ordered Python dict, with `d[k] = v` and the union `a | b`.
- `Http` holds responses and the exception classes. The outcome of one call of the wrapped function is either a
  returned response or a raised exception.
- `Streams` holds the configuration, the conformance lookup, the paginator, the more-results flag, the URL parameters
  and the record path `$.quotes[*]`.
- `Retry` holds the wrapper in two forms:
  - `Handle` is the behaviour of one invocation as a value: the result, the URL left on the request, the log records
    and the URL of every call;
  - `RequestHandler` is the wrapper itself, over a `PreparedRequest` whose `url` it rewrites in place, a `Transport`
    standing for the wrapped function and a `Logger`. It is proved to do exactly what `Handle` describes.
- `Driver` holds the SDK's paging loop, which is not part of this repository. It is modelled under stated assumptions
  so that the wrapper can be seen in use. The records of a page are emitted before its more-results flag is read. The
  next offset is the current one plus the page size. The run stops after a given budget of pages. `FetchPage` is one
  page as a value; `RunPage` is the same page over the imperative wrapper, proved to agree with it. `Fetched` lists
  the page requests of a run, and the `Extract*` lemmas tie the run's offsets, records, log, calls and end to them.

The wrapped function is an oracle `respond(n, url)`: the outcome of the n-th call of the run with that URL. A
retry can therefore behave differently from the first attempt, and a server can answer by URL. For example, it
can fail on `feature=all` and succeed on the reduced list. The log is reduced to a trace of `Warning(url, exception)`
and `Error(url, exception)` records. The warning names the URL before the rewrite and the error names the URL after it,
as the source formats them.

Notes on the code's behaviour:
- The wrapper calls the wrapped function at most twice. After the second recognised failure it makes no call: it builds
  the placeholder response.
- The reduced feature list is a repeated `feature=` query parameter, one per sub-resource.
- The rewrite is a plain replacement on the whole URL string (`Retry.Downgrade`). It replaces every `feature=all` in the
  URL, and it changes nothing when the URL lacks one.
- `page_size` is passed on as configured. Nothing in `streams.py` checks its range, so the model admits any integer.
- The paginator stops when the flag is not truthy in Python's sense. The flag is not checked to be a boolean.
- A body without `info` or the flag makes `has_more` raise. The model has these as `Malformed` ends of the run.

One consequence of the wrapper is that the placeholder forces `more_results_matching_the_request` to true. When every
call fails with a recognised exception, the run never sees the end of the data. Every page then yields the
placeholder quote, a warning and an error until the page budget of the model runs out (`Driver.FailingSourceNeverExhausts`).
In the real SDK loop the paging would then go on without end.

## Model

| member | source | states |
|---|---|---|
| Retry.Handle | tap_dealhub/streams.py:56-87 | At most two calls of the wrapped function, the first with the request's URL. A second call happens exactly when the first raised one of the seven recognised classes; it uses the downgraded URL, which stays on the request, after one warning naming the original URL. A first call that returns, or raises an unrecognised exception, is passed through with the URL unchanged and nothing logged. A retry that returns or raises an unrecognised exception is passed through with only the warning logged. A second recognised failure returns the placeholder, after exactly a warning then an error naming the downgraded URL. Recognised exceptions never escape. |
| Retry.RequestHandler | tap_dealhub/streams.py:57-86 | The imperative wrapper over a request object, the wrapped function and the log. Its result, the URL it leaves on the request, the records it appends to the log and the calls it makes are exactly those `Handle` describes. |
| Retry.Placeholder | tap_dealhub/streams.py:83-85 | The synthetic response has status 200. Its more-results flag reads as true. Its records are exactly one placeholder quote. |
| Retry.UnknownQuote | tap_dealhub/streams.py:85 | The placeholder quote has only the primary key `dealhub_quote_id`, set to "unknown". |
| Retry.DowngradeWithoutSelector | tap_dealhub/streams.py:70 | A URL without `feature=all` is retried unchanged. |
| Retry.DowngradeFinalSelector | tap_dealhub/streams.py:70 | A URL whose only `feature=all` is its last parameter keeps everything before it and ends with the reduced feature list. |
| Retry.ReducedOmitsApprovals | tap_dealhub/streams.py:70 | The reduced feature list does not contain `approvals`. |
| Text.ReplaceAbsent | tap_dealhub/streams.py:70 | `str.replace` leaves a string without the pattern unchanged. |
| Text.ReplaceFinal | tap_dealhub/streams.py:70 | `str.replace` on a string whose only occurrence of the pattern ends it replaces exactly that occurrence. |
| Streams.HasMore | tap_dealhub/streams.py:24-25 | The flag is found exactly when the body is an object with an `info` object that holds `more_results_matching_the_request`; it is then that value. For a well-formed page body it is the body's boolean. |
| Streams.NewPaginator | tap_dealhub/streams.py:45-46 | The paginator starts at offset 0 and steps by the configured page size, taken unchecked. |
| Streams.BaseUrlParams | tap_dealhub/streams.py:48-52 | The parameters are `limit` then `offset`; `limit` is the configured page size and `offset` is the page token. |
| Streams.QuotesUrlParams | tap_dealhub/streams.py:185-186 | The quotes parameters are `limit`, `offset`, `feature` in that order. `feature` is "all". Every other key has the parent's value. |
| Params.UnionGet | tap_dealhub/streams.py:186 | In the union of dict `a` with dict `b`, a key of `b` takes `b`'s value and every other key keeps `a`'s. |
| Streams.ConformanceLevel | tap_dealhub/streams.py:31-35 | `none`, `root_only` and `recursive` give the three levels; every other string gives None. |
| Streams.SettingName | tap_dealhub/streams.py:31-35 | Each level has exactly one configuration spelling that the lookup maps to it. |
| Streams.Records | tap_dealhub/streams.py:92 | The records of any object body with a `quotes` array, whatever its other fields, are exactly that array; in particular those of a well-formed page body. |
| Driver.FetchPage | tap_dealhub/streams.py:56-87 | One page through the wrapper logs and calls what the wrapper does. An exception that escapes aborts the run with no records. A returned response emits its body's quotes, and the run goes on exactly when its more-results flag is found and truthy; a falsy flag ends it as exhausted, a failed lookup as malformed. Only unrecognised exceptions abort. When every call fails with a recognised class, the page is skipped: the placeholder quote, two calls, a warning naming the first URL and an error naming the retry's URL, and the run goes on. |
| Driver.RunPage | tap_dealhub/streams.py:56-87 | One page over the imperative wrapper, a fresh request object, the wrapped function and the log gives exactly the page `FetchPage` describes, and appends exactly that page's log records and calls. |
| Driver.ExtractOffsets | tap_dealhub/streams.py:45-46 | The n-th page from a paginator is requested at its offset plus n times the page size, and no more pages than the budget are requested. |
| Driver.StartOffsets | tap_dealhub/streams.py:45-46 | From the stream's new paginator, page n is requested at offset n times the configured page size. |
| Driver.ExtractCalls | tap_dealhub/streams.py:56-87 | Every page makes one or two calls, the budget ends a run only when all of it was used, and only unrecognised exceptions abort a run. |
| Driver.PlaceholdersFillBudget | tap_dealhub/streams.py:83-86 | Pages that are always skipped never end the run: every page adds the placeholder quote and two calls, and the log alternates warning and error, each naming the URL of the call at the same position. |
| Driver.FailingSourceNeverExhausts | tap_dealhub/streams.py:83-86 | When every call fails with a recognised class, the quotes stream yields one placeholder quote and two calls per page, a warning then an error per page, each naming the URL of its call, and never reaches the end of the data. |
| Driver.FetchedChain | tap_dealhub/streams.py:45-46 | The page requests of a run start at the paginator after the given calls; each gets the page for its paginator and call count; each next one is at the advanced paginator after the previous page's calls, and only follows a page that let the run go on. |
| Driver.ExtractRequests | tap_dealhub/streams.py:45-46 | A run makes one page request per offset, at that offset. |
| Driver.ExtractTrace | tap_dealhub/streams.py:92 | A run's records, log and calls are those of its pages, concatenated in order. |
| Driver.ExtractEnd | tap_dealhub/streams.py:24-25 | A run ends as its last page said (exhausted, malformed or aborted), or at the budget when that page let it go on. |
| Driver.SkippedPageExample | tap_dealhub/streams.py:56-87 | With page size 2, quotes A and B, a page whose two calls both fail, then quote D with no more results: requests at offsets 0, 2 and 4, records A, B, the placeholder and D, four calls, a warning then an error, and the run ends as exhausted. |

## Left out

- The `Quotes.schema` declaration (tap_dealhub/streams.py:94-183) is left out. It is static data with no behaviour.
- The bearer-token authenticator and the `url_base` property (tap_dealhub/streams.py:37-43) are left out. They only
  pass configuration to the SDK.
- tap_dealhub/tap.py is not part of this model. It declares configuration options and the command-line entry point.
  Its 1-50 page-size range is description text that nothing enforces.
- HTTP, the construction of a `requests.Response` and JSON decoding are not modelled. A response is a status code and
  an already decoded body. The placeholder's body bytes appear as the value they decode to. A body that is not valid
  JSON is not modelled, and JSON numbers are integers only.
- The Python exception hierarchy is reduced. An exception whose class derives from one of the seven named classes is
  represented by the named class.
- Logging I/O and the exact message text are left out. The log is a trace of records carrying the URL and the exception.
- A configuration without `page_size` or `stream_type_conformance` raises KeyError in the source. This is not modelled:
  `Config` always carries both.
- These SDK behaviours are stated assumptions, not models of code shown here:
  - the paging loop and its order (records of a page emitted, then the flag read);
  - the offset advance by the page size;
  - the paginator's own loop detection and its stop on a zero offset, which are not modelled;
  - the turning of HTTP error statuses into `FatalAPIError`/`RetriableAPIError`, which the model takes as given;
  - the preparation of the URL from the parameters, which is a parameter `prepare`;
  - the application of the type-conformance level to records.
- Driver.Extract: the SDK's paging loop is modelled as a recursive function bounded by a page budget, not as a loop that
  runs until exhaustion. Termination of the real loop is not claimed.
- Streams.Records: for a `quotes` value that is not an array, the result of the SDK's JSONPath evaluation of
  `$.quotes[*]` is not modelled; the model yields no records.
- Text.Replace: Python's `str.replace` with an empty pattern is not modelled. The wrapper's pattern is the non-empty
  constant `feature=all`.
