/**
 * The two paging loops (`Query.get` with the `cmr-search-after` cursor,
 * `ToolServiceVariableBaseQuery.get` with page numbers), `hits` and
 * `get_all`. The CMR server is a function from requests to responses.
 */
module Pagination {
  import opened Wrappers
  import opened QueryState
  import opened UrlBuilder

  /** The largest page CMR serves. */
  const MaxPageSize := 2000

  const CursorHeader := "cmr-search-after"

  /** One `requests.get`: the URL, the headers sent, `page_size` and, for the page-number loop, `page_num`. */
  datatype Request = Request(url: string, headers: map<string, string>, pageSize: int, pageNum: Option<int>)

  /** One item of a JSON feed, as decoded. */
  datatype Entry = Entry(json: string)

  /**
   * What the server answers: the status code, the decoded entries (`feed.entry`
   * or `items`), the raw body, and the `cmr-search-after` and `CMR-Hits` headers.
   */
  datatype Response = Response(status: int, entries: seq<Entry>, text: string,
                               searchAfter: Option<string>, hits: Option<int>)

  type Server = Request -> Response

  /** An element of the result list: a decoded entry, or a whole page of text in any other format. */
  datatype Item = EntryItem(entry: Entry) | PageText(text: string)

  /** What a call returns or raises, and every request it made, in order. */
  datatype Run<T> = Run(outcome: Result<T, QueryError>, sent: seq<Request>)

  /** `raise_for_status`: 4xx and 5xx raise. */
  predicate IsHttpError(status: int)
  {
    400 <= status < 600
  }

  function Min(a: int, b: int): int
  {
    if a <= b then a else b
  }

  /** The items one page adds: its entries for JSON, else its body as one item. */
  function PageItems(resp: Response, json: bool): (items: seq<Item>)
    ensures !json ==> items == [PageText(resp.text)]
    ensures json ==> |items| == |resp.entries| && forall i :: 0 <= i < |items| ==> items[i] == EntryItem(resp.entries[i])
  {
    if json then seq(|resp.entries|, i requires 0 <= i < |resp.entries| => EntryItem(resp.entries[i]))
    else [PageText(resp.text)]
  }

  /** The headers after a response: a non-empty cursor replaces the one sent. */
  function NextHeaders(headers: map<string, string>, resp: Response): map<string, string>
  {
    if resp.searchAfter.Some? && resp.searchAfter.value != "" then headers[CursorHeader := resp.searchAfter.value]
    else headers
  }

  /** Puts one request and the items it brought in front of the rest of a run. */
  function Prepend<T>(req: Request, items: seq<T>, rest: Run<seq<T>>): Run<seq<T>>
  {
    Run(if rest.outcome.Success? then Success(items + rest.outcome.value) else rest.outcome, [req] + rest.sent)
  }

  /** A run partway through a loop: what has been gathered and sent so far, followed by what the rest of the loop does. */
  function Extend<T>(items: seq<T>, sent: seq<Request>, rest: Run<seq<T>>): Run<seq<T>>
  {
    Run(if rest.outcome.Success? then Success(items + rest.outcome.value) else rest.outcome, sent + rest.sent)
  }

  /**
   * The cursor loop from the point where `n` results have been asked for:
   * ask for `min(limit - n, 2000)`, add the page, and go on while fewer than
   * `limit` have been asked for and the response carried a cursor.
   */
  function CursorFrom(server: Server, url: string, json: bool, limit: int, headers: map<string, string>, n: int): (r: Run<seq<Item>>)
    ensures |r.sent| >= 1 && r.sent[0] == Request(url, headers, Min(limit - n, MaxPageSize), None)
    decreases limit - n
  {
    var pageSize := Min(limit - n, MaxPageSize);
    var req := Request(url, headers, pageSize, None);
    var resp := server(req);
    if IsHttpError(resp.status) then Run(Failure(HttpError(resp.status)), [req])
    else if n + pageSize < limit && resp.searchAfter.Some? then
      Prepend(req, PageItems(resp, json), CursorFrom(server, url, json, limit, NextHeaders(headers, resp), n + pageSize))
    else Run(Success(PageItems(resp, json)), [req])
  }

  /** `Query.get(limit)`: build the URL, then page with the cursor, starting from a copy of the query's headers. */
  function CursorGet(k: Kind, st: State, server: Server, limit: int): Run<seq<Item>>
  {
    match Url(k, st)
    case Failure(e) => Run(Failure(e), [])
    case Success(url) => CursorFrom(server, url, st.format == "json", limit, st.headers, 0)
  }

  /**
   * The page-number loop from page `page` with `count` results so far: stop
   * once `count >= limit`; otherwise fetch the page and stop if it is empty.
   */
  function PagedFrom(server: Server, url: string, json: bool, limit: int, pageSize: int, page: int, count: int): (r: Run<seq<Item>>)
    ensures count < limit ==> |r.sent| >= 1 && r.sent[0].pageNum == Some(page)
    decreases limit - count
  {
    if count >= limit then Run(Success([]), [])
    else
      var req := Request(url, map[], pageSize, Some(page));
      var resp := server(req);
      if IsHttpError(resp.status) then Run(Failure(HttpError(resp.status)), [req])
      else
        var latest := PageItems(resp, json);
        if |latest| == 0 then Run(Success([]), [req])
        else Prepend(req, latest, PagedFrom(server, url, json, limit, pageSize, page + 1, count + |latest|))
  }

  /** `ToolServiceVariableBaseQuery.get(limit)`: pages of `min(limit, 2000)` from page 1, sent without headers. */
  function PagedGet(k: Kind, st: State, server: Server, limit: int): Run<seq<Item>>
  {
    match Url(k, st)
    case Failure(e) => Run(Failure(e), [])
    case Success(url) => PagedFrom(server, url, st.format == "json", limit, Min(limit, MaxPageSize), 1, 0)
  }

  /** The `get` each kind has. */
  function Get(k: Kind, st: State, server: Server, limit: int): Run<seq<Item>>
  {
    if k.Granule? || k.Collection? then CursorGet(k, st, server, limit) else PagedGet(k, st, server, limit)
  }

  /** `hits()`: one request for a page of size 0 with the query's headers; the count is the `CMR-Hits` header. */
  function Hits(k: Kind, st: State, server: Server): Run<int>
  {
    match Url(k, st)
    case Failure(e) => Run(Failure(e), [])
    case Success(url) =>
      var req := Request(url, st.headers, 0, None);
      var resp := server(req);
      if IsHttpError(resp.status) then Run(Failure(HttpError(resp.status)), [req])
      else if resp.hits.None? then Run(Failure(KeyError("CMR-Hits")), [req])
      else Run(Success(resp.hits.value), [req])
  }

  /** `get_all()`: `get(hits())`. */
  function GetAll(k: Kind, st: State, server: Server): Run<seq<Item>>
  {
    var h := Hits(k, st, server);
    if h.outcome.Failure? then Run(Failure(h.outcome.error), h.sent)
    else
      var g := Get(k, st, server, h.outcome.value);
      Run(g.outcome, h.sent + g.sent)
  }
}
