/**
 * The pure parts of the DealHub stream: the type-conformance setting, the
 * offset paginator it creates, the query parameters of each page request, the
 * more-results flag and the record path of a quotes page.
 */
module Streams {
  import opened Wrappers
  import opened Json
  import opened Params
  import opened Http

  /** The configuration keys the stream reads. */
  datatype Config = Config(urlBase: string, bearerToken: string, pageSize: int, streamTypeConformance: string)

  /** The three type-conformance levels of the SDK. */
  datatype TypeConformanceLevel = NoConformance | RootOnly | Recursive

  /**
   * The configuration spelling of each level: the lookup maps it back to the
   * level, and it is the only string that does.
   */
  function SettingName(level: TypeConformanceLevel): (name: string)
    ensures ConformanceLevel(name) == Some(level)
    ensures forall s :: ConformanceLevel(s) == Some(level) ==> s == name
  {
    match level
    case NoConformance => "none"
    case RootOnly => "root_only"
    case Recursive => "recursive"
  }

  /**
   * The dictionary lookup `{...}.get(config['stream_type_conformance'])`:
   * one of the three spellings gives its level, any other string gives None.
   */
  function ConformanceLevel(setting: string): (r: Option<TypeConformanceLevel>)
    ensures r.Some? <==> setting in {"none", "root_only", "recursive"}
    ensures r == Some(NoConformance) <==> setting == "none"
    ensures r == Some(RootOnly) <==> setting == "root_only"
    ensures r == Some(Recursive) <==> setting == "recursive"
  {
    if setting == "none" then Some(NoConformance)
    else if setting == "root_only" then Some(RootOnly)
    else if setting == "recursive" then Some(Recursive)
    else None
  }

  /** The state of an offset paginator: the next offset to request and the step. */
  datatype Paginator = Paginator(current: int, pageSize: int)

  /**
   * `get_new_paginator`: the first offset is 0 and the step is the configured
   * page size, taken as it is (the 1-50 range of the configuration is only
   * documentation and is not checked).
   */
  function NewPaginator(cfg: Config): (p: Paginator)
    ensures p.current == 0 && p.pageSize == cfg.pageSize
  {
    Paginator(0, cfg.pageSize)
  }

  const MORE_KEY := "more_results_matching_the_request"
  const ID_KEY := "dealhub_quote_id"

  /** A well-formed page body: `{"info": {MORE_KEY: more}, "quotes": quotes}`. */
  function Envelope(more: bool, quotes: seq<Json>): (body: Json) {
    Obj(map["info" := Obj(map[MORE_KEY := Bool(more)]), "quotes" := Arr(quotes)])
  }

  /**
   * `DealHubPaginator.has_more`: the raw value of
   * `response.json()['info'][MORE_KEY]`, or the lookup error it raises.
   */
  function HasMore(resp: Response): (r: Lookup)
    ensures r.Found? <==>
      resp.body.Obj? && "info" in resp.body.fields &&
      resp.body.fields["info"].Obj? && MORE_KEY in resp.body.fields["info"].fields
    ensures r.Found? ==> r.value == resp.body.fields["info"].fields[MORE_KEY]
    ensures forall more: bool, quotes: seq<Json> :: resp.body == Envelope(more, quotes) ==> r == Found(Bool(more))
  {
    match Index(resp.body, "info")
    case Missing(e) => Missing(e)
    case Found(info) => Index(info, MORE_KEY)
  }

  /** `DealHubStream.get_url_params`: the page size as `limit` and the page token as `offset`. */
  function BaseUrlParams(cfg: Config, token: Value): (d: Dict)
    ensures Keys(d) == ["limit", "offset"]
    ensures Get(d, "limit") == Some(Int(cfg.pageSize)) && Get(d, "offset") == Some(token)
  {
    [("limit", Int(cfg.pageSize)), ("offset", token)]
  }

  /**
   * `Quotes.get_url_params`: the parent's parameters united with
   * `{'feature': 'all'}`; the new key comes last and nothing else changes.
   */
  function QuotesUrlParams(cfg: Config, token: Value): (d: Dict)
    ensures Keys(d) == ["limit", "offset", "feature"]
    ensures Get(d, "feature") == Some(Text("all"))
    ensures forall k :: k != "feature" ==> Get(d, k) == Get(BaseUrlParams(cfg, token), k)
  {
    var base := BaseUrlParams(cfg, token);
    var extra := [("feature", Text("all"))];
    PutKeys(base, "feature", Text("all"));
    forall k ensures Get(Union(base, extra), k) == if Get(extra, k).Some? then Get(extra, k) else Get(base, k) {
      UnionGet(base, extra, k);
    }
    Union(base, extra)
  }

  /**
   * The records of a page, by the path `$.quotes[*]`: the items of a
   * `quotes` array; a body without one yields no records.
   */
  function Records(body: Json): (rs: seq<Json>)
    // any object body with a `quotes` array, whatever its other fields, yields exactly that array
    ensures forall fields: map<string, Json>, quotes: seq<Json> ::
      body == Obj(fields) && "quotes" in fields && fields["quotes"] == Arr(quotes) ==> rs == quotes
    ensures forall more: bool, quotes: seq<Json> :: body == Envelope(more, quotes) ==> rs == quotes
  {
    if body.Obj? && "quotes" in body.fields && body.fields["quotes"].Arr? then body.fields["quotes"].items else []
  }
}
