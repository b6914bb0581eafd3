/** What the paging loops ask the server for, what they return, and when they stop. */
module PaginationProperties {
  import opened Wrappers
  import opened QueryState
  import opened UrlBuilder
  import opened Pagination

  /** The page sizes asked for by a list of requests, added up: the source's `n_results`. */
  function Asked(sent: seq<Request>): int
  {
    if |sent| == 0 then 0 else sent[0].pageSize + Asked(sent[1..])
  }

  /** The items the responses to a list of requests bring, in order. */
  function AllItems(server: Server, sent: seq<Request>, json: bool): seq<Item>
  {
    if |sent| == 0 then [] else PageItems(server(sent[0]), json) + AllItems(server, sent[1..], json)
  }

  lemma AskedPrefix(req: Request, rest: seq<Request>, i: nat)
    requires 0 < i <= |rest| + 1
    ensures Asked(([req] + rest)[..i]) == req.pageSize + Asked(rest[..i - 1])
  {
    assert ([req] + rest)[..i] == [req] + rest[..i - 1];
    assert ([req] + rest[..i - 1])[1..] == rest[..i - 1];
  }

  lemma AskedAll(req: Request, rest: seq<Request>)
    ensures Asked([req] + rest) == req.pageSize + Asked(rest)
  {
    assert ([req] + rest)[1..] == rest;
  }

  // --------------------------------------------------------- cursor loop

  /**
   * The sizes a run of the cursor loop asks for, starting with `n` results
   * asked for: each request asks for `min(limit - n_results, 2000)`, and a
   * further request follows only while `n_results < limit`.
   */
  predicate CursorSizes(sent: seq<Request>, limit: int, n: int)
  {
    |sent| == 0 ||
    (&& sent[0].pageSize == Min(limit - n, MaxPageSize)
     && (|sent| > 1 ==> n + sent[0].pageSize < limit)
     && CursorSizes(sent[1..], limit, n + sent[0].pageSize))
  }

  lemma {:induction false} CursorFollowsSizes(server: Server, url: string, json: bool, limit: int, headers: map<string, string>, n: int)
    ensures CursorSizes(CursorFrom(server, url, json, limit, headers, n).sent, limit, n)
    decreases if n < limit then limit - n else 0
  {
    var r := CursorFrom(server, url, json, limit, headers, n);
    var pageSize := Min(limit - n, MaxPageSize);
    var req := Request(url, headers, pageSize, None);
    var resp := server(req);
    if IsHttpError(resp.status) || !(n + pageSize < limit && resp.searchAfter.Some?) {
      assert r.sent == [req] && r.sent[1..] == [];
    } else {
      var rest := CursorFrom(server, url, json, limit, NextHeaders(headers, resp), n + pageSize);
      CursorFollowsSizes(server, url, json, limit, NextHeaders(headers, resp), n + pageSize);
      assert r.sent == [req] + rest.sent && r.sent[1..] == rest.sent;
    }
  }

  /** Sizes chosen that way are between 1 and 2000 and add up to at most `limit`. */
  lemma {:induction false} CursorSizesBounded(sent: seq<Request>, limit: int, n: int)
    requires CursorSizes(sent, limit, n) && n < limit
    ensures forall i :: 0 <= i < |sent| ==> 1 <= sent[i].pageSize <= MaxPageSize
    ensures n + Asked(sent) <= limit
    decreases |sent|
  {
    if |sent| > 0 {
      if |sent| > 1 {
        CursorSizesBounded(sent[1..], limit, n + sent[0].pageSize);
        forall i | 0 <= i < |sent| ensures 1 <= sent[i].pageSize <= MaxPageSize {
          if i > 0 { assert sent[i] == sent[1..][i - 1]; }
        }
      } else {
        assert sent[1..] == [];
      }
    }
  }

  /**
   * For a positive deficit every request of the cursor loop asks for between
   * 1 and 2000 results, and the total asked for never passes `limit`.
   */
  lemma CursorPageSizes(server: Server, url: string, json: bool, limit: int, headers: map<string, string>, n: int)
    requires n < limit
    ensures var r := CursorFrom(server, url, json, limit, headers, n);
      && (forall i :: 0 <= i < |r.sent| ==> 1 <= r.sent[i].pageSize <= MaxPageSize)
      && n + Asked(r.sent) <= limit
  {
    CursorFollowsSizes(server, url, json, limit, headers, n);
    CursorSizesBounded(CursorFrom(server, url, json, limit, headers, n).sent, limit, n);
  }

  /**
   * What the cursor loop returns: on success, the items of every response in
   * order; on failure, the HTTP error of the last response.
   */
  lemma {:induction false} CursorResults(server: Server, url: string, json: bool, limit: int, headers: map<string, string>, n: int)
    ensures var r := CursorFrom(server, url, json, limit, headers, n);
      && |r.sent| >= 1
      && (r.outcome.Success? ==> r.outcome.value == AllItems(server, r.sent, json))
      && (r.outcome.Failure? <==> IsHttpError(server(r.sent[|r.sent| - 1]).status))
      && (r.outcome.Failure? ==> r.outcome.error == HttpError(server(r.sent[|r.sent| - 1]).status))
    decreases if n < limit then limit - n else 0
  {
    var r := CursorFrom(server, url, json, limit, headers, n);
    var pageSize := Min(limit - n, MaxPageSize);
    var req := Request(url, headers, pageSize, None);
    var resp := server(req);
    if IsHttpError(resp.status) || !(n + pageSize < limit && resp.searchAfter.Some?) {
      assert r.sent == [req];
      if r.outcome.Success? {
        assert AllItems(server, r.sent, json) == PageItems(resp, json) + AllItems(server, [], json);
      }
    } else {
      var rest := CursorFrom(server, url, json, limit, NextHeaders(headers, resp), n + pageSize);
      CursorResults(server, url, json, limit, NextHeaders(headers, resp), n + pageSize);
      assert r.sent == [req] + rest.sent;
      assert r.sent[1..] == rest.sent;
      assert r.sent[|r.sent| - 1] == rest.sent[|rest.sent| - 1];
    }
  }

  /** The server answered `req` without an error and with a cursor. */
  predicate HadCursor(server: Server, req: Request)
  {
    !IsHttpError(server(req).status) && server(req).searchAfter.Some?
  }

  /** The cursor loop goes on only after an answer that carried a cursor. */
  lemma {:induction false} CursorContinues(server: Server, url: string, json: bool, limit: int, headers: map<string, string>, n: int)
    ensures forall i :: 0 <= i && i + 1 < |CursorFrom(server, url, json, limit, headers, n).sent| ==>
      HadCursor(server, CursorFrom(server, url, json, limit, headers, n).sent[i])
    decreases if n < limit then limit - n else 0
  {
    var r := CursorFrom(server, url, json, limit, headers, n);
    var pageSize := Min(limit - n, MaxPageSize);
    var req := Request(url, headers, pageSize, None);
    if HadCursor(server, req) && n + pageSize < limit {
      var next := NextHeaders(headers, server(req));
      var rest := CursorFrom(server, url, json, limit, next, n + pageSize);
      CursorContinues(server, url, json, limit, next, n + pageSize);
      assert r.sent == [req] + rest.sent;
      forall i | 0 <= i < |r.sent| - 1 ensures HadCursor(server, r.sent[i]) {
        if i > 0 { assert r.sent[i] == rest.sent[i - 1]; }
      }
    } else {
      assert r.sent == [req];
    }
  }

  /**
   * A successful run of the cursor loop ends on a response without a cursor
   * or once `limit` results have been asked for.
   */
  lemma {:induction false} CursorEnds(server: Server, url: string, json: bool, limit: int, headers: map<string, string>, n: int)
    ensures var r := CursorFrom(server, url, json, limit, headers, n);
      |r.sent| >= 1 &&
      (r.outcome.Success? ==> server(r.sent[|r.sent| - 1]).searchAfter.None? || n + Asked(r.sent) >= limit)
    decreases if n < limit then limit - n else 0
  {
    var r := CursorFrom(server, url, json, limit, headers, n);
    var pageSize := Min(limit - n, MaxPageSize);
    var req := Request(url, headers, pageSize, None);
    var resp := server(req);
    if IsHttpError(resp.status) || !(n + pageSize < limit && resp.searchAfter.Some?) {
      assert r.sent == [req];
      AskedAll(req, []);
    } else {
      var rest := CursorFrom(server, url, json, limit, NextHeaders(headers, resp), n + pageSize);
      CursorEnds(server, url, json, limit, NextHeaders(headers, resp), n + pageSize);
      assert r.sent == [req] + rest.sent;
      assert r.sent[|r.sent| - 1] == rest.sent[|rest.sent| - 1];
      AskedAll(req, rest.sent);
    }
  }

  /**
   * The cursor lives in the loop's own copy of the headers: the first request
   * carries the query's headers, each later one the previous headers with the
   * cursor just returned, and no request differs from the query's headers
   * except in `cmr-search-after`.
   */
  lemma {:induction false} CursorHeaders(server: Server, url: string, json: bool, limit: int, headers: map<string, string>, n: int)
    ensures var r := CursorFrom(server, url, json, limit, headers, n);
      && |r.sent| >= 1
      && r.sent[0].headers == headers
      && (forall i :: 0 <= i < |r.sent| - 1 ==> r.sent[i + 1].headers == NextHeaders(r.sent[i].headers, server(r.sent[i])))
      && (forall i :: 0 <= i < |r.sent| ==> r.sent[i].headers - {CursorHeader} == headers - {CursorHeader})
      && (forall i :: 0 <= i < |r.sent| ==> r.sent[i].url == url && r.sent[i].pageNum.None?)
    decreases if n < limit then limit - n else 0
  {
    var r := CursorFrom(server, url, json, limit, headers, n);
    var pageSize := Min(limit - n, MaxPageSize);
    var req := Request(url, headers, pageSize, None);
    var resp := server(req);
    if !IsHttpError(resp.status) && n + pageSize < limit && resp.searchAfter.Some? {
      var next := NextHeaders(headers, resp);
      var rest := CursorFrom(server, url, json, limit, next, n + pageSize);
      CursorHeaders(server, url, json, limit, next, n + pageSize);
      assert r.sent == [req] + rest.sent;
      assert next - {CursorHeader} == headers - {CursorHeader};
      forall i | 0 <= i < |r.sent| - 1
        ensures r.sent[i + 1].headers == NextHeaders(r.sent[i].headers, server(r.sent[i]))
      {
        assert r.sent[i + 1] == rest.sent[i];
        if i > 0 { assert r.sent[i] == rest.sent[i - 1]; }
      }
      forall i | 0 <= i < |r.sent|
        ensures r.sent[i].headers - {CursorHeader} == headers - {CursorHeader}
      {
        if i > 0 { assert r.sent[i] == rest.sent[i - 1]; }
      }
    }
  }

  /** The query's own headers never hold a cursor that a response returned, and are sent unchanged first. */
  lemma FirstRequestHasQueryHeaders(k: Kind, st: State, server: Server, limit: int)
    requires Url(k, st).Success?
    ensures var r := CursorGet(k, st, server, limit);
      |r.sent| >= 1 && r.sent[0] == Request(Url(k, st).value, st.headers, Min(limit, MaxPageSize), None)
  {
    CursorHeaders(server, Url(k, st).value, st.format == "json", limit, st.headers, 0);
  }

  /** A server that always answers, and always with a cursor. */
  ghost predicate AlwaysMore(server: Server)
  {
    forall req :: !IsHttpError(server(req).status) && server(req).searchAfter.Some?
  }

  /** Against a server that always has more, the loop makes ceil(deficit / 2000) requests and succeeds. */
  lemma {:induction false} CursorRequestCount(server: Server, url: string, json: bool, limit: int, headers: map<string, string>, n: int)
    requires AlwaysMore(server) && n < limit
    ensures var r := CursorFrom(server, url, json, limit, headers, n);
      r.outcome.Success? && |r.sent| == (limit - n + MaxPageSize - 1) / MaxPageSize
    decreases limit - n
  {
    var pageSize := Min(limit - n, MaxPageSize);
    var req := Request(url, headers, pageSize, None);
    var resp := server(req);
    assert !IsHttpError(resp.status) && resp.searchAfter.Some?;
    if n + pageSize < limit {
      CursorRequestCount(server, url, json, limit, NextHeaders(headers, resp), n + pageSize);
    }
  }

  /** `get(3000)` against a server that always has more: two requests, of 2000 and then 1000. */
  lemma ThreeThousand(server: Server, url: string, json: bool, headers: map<string, string>)
    requires AlwaysMore(server)
    ensures var r := CursorFrom(server, url, json, 3000, headers, 0);
      |r.sent| == 2 && r.sent[0].pageSize == 2000 && r.sent[1].pageSize == 1000
  {
    var r := CursorFrom(server, url, json, 3000, headers, 0);
    CursorRequestCount(server, url, json, 3000, headers, 0);
    CursorFollowsSizes(server, url, json, 3000, headers, 0);
    assert r.sent[1..][0] == r.sent[1];
  }

  /** `get(2000)` against a server that always has more: a single request. */
  lemma TwoThousand(server: Server, url: string, json: bool, headers: map<string, string>)
    requires AlwaysMore(server)
    ensures |CursorFrom(server, url, json, 2000, headers, 0).sent| == 1
  {
    CursorRequestCount(server, url, json, 2000, headers, 0);
  }

  /** With a limit of zero or less, one request still goes out, asking for `limit` results. */
  lemma NonPositiveLimit(server: Server, url: string, json: bool, limit: int, headers: map<string, string>)
    requires limit <= 0
    ensures var r := CursorFrom(server, url, json, limit, headers, 0);
      r.sent == [Request(url, headers, limit, None)]
  {
  }

  // --------------------------------------------------- page-number loop

  /** The page-number loop asks for pages `page`, `page + 1`, ... in order, all of the same size and without headers. */
  lemma {:induction false} PagedRequests(server: Server, url: string, json: bool, limit: int, pageSize: int, page: int, count: int)
    ensures forall i :: 0 <= i < |PagedFrom(server, url, json, limit, pageSize, page, count).sent| ==>
      PagedFrom(server, url, json, limit, pageSize, page, count).sent[i] == Request(url, map[], pageSize, Some(page + i))
    decreases if count < limit then limit - count else 0
  {
    var r := PagedFrom(server, url, json, limit, pageSize, page, count);
    if count < limit {
      var req := Request(url, map[], pageSize, Some(page));
      var latest := PageItems(server(req), json);
      if !IsHttpError(server(req).status) && |latest| > 0 {
        var rest := PagedFrom(server, url, json, limit, pageSize, page + 1, count + |latest|);
        PagedRequests(server, url, json, limit, pageSize, page + 1, count + |latest|);
        assert r.sent == [req] + rest.sent;
        assert r.sent[0] == req;
        forall i | 0 <= i < |r.sent| ensures r.sent[i] == Request(url, map[], pageSize, Some(page + i)) {
          if i > 0 { assert r.sent[i] == rest.sent[i - 1]; }
        }
      }
    }
  }

  /** It returns the items of every response in order, or the HTTP error of the last one. */
  lemma {:induction false} PagedResults(server: Server, url: string, json: bool, limit: int, pageSize: int, page: int, count: int)
    ensures var r := PagedFrom(server, url, json, limit, pageSize, page, count);
      && (r.outcome.Success? ==> r.outcome.value == AllItems(server, r.sent, json))
      && (r.outcome.Failure? ==> |r.sent| > 0 && r.outcome.error == HttpError(server(r.sent[|r.sent| - 1]).status))
    decreases if count < limit then limit - count else 0
  {
    var r := PagedFrom(server, url, json, limit, pageSize, page, count);
    if count < limit {
      var req := Request(url, map[], pageSize, Some(page));
      var resp := server(req);
      var latest := PageItems(resp, json);
      if IsHttpError(resp.status) || |latest| == 0 {
        assert r.sent == [req];
        if r.outcome.Success? {
          assert AllItems(server, r.sent, json) == latest + AllItems(server, [], json);
        }
      } else {
        var rest := PagedFrom(server, url, json, limit, pageSize, page + 1, count + |latest|);
        PagedResults(server, url, json, limit, pageSize, page + 1, count + |latest|);
        assert r.sent == [req] + rest.sent;
        assert r.sent[1..] == rest.sent;
        if |rest.sent| > 0 { assert r.sent[|r.sent| - 1] == rest.sent[|rest.sent| - 1]; }
      }
    }
  }

  /** Each request of a page-number run went out while fewer than `limit` results were in hand. */
  predicate BelowLimit(server: Server, sent: seq<Request>, json: bool, limit: int, count: int)
  {
    |sent| == 0 ||
    (count < limit && BelowLimit(server, sent[1..], json, limit, count + |PageItems(server(sent[0]), json)|))
  }

  /** Each request of the page-number loop is made while fewer than `limit` results are in hand. */
  lemma {:induction false} PagedBelowLimit(server: Server, url: string, json: bool, limit: int, pageSize: int, page: int, count: int)
    ensures BelowLimit(server, PagedFrom(server, url, json, limit, pageSize, page, count).sent, json, limit, count)
    decreases if count < limit then limit - count else 0
  {
    var r := PagedFrom(server, url, json, limit, pageSize, page, count);
    if count < limit {
      var req := Request(url, map[], pageSize, Some(page));
      var latest := PageItems(server(req), json);
      if IsHttpError(server(req).status) || |latest| == 0 {
        assert r.sent == [req] && r.sent[1..] == [];
      } else {
        var rest := PagedFrom(server, url, json, limit, pageSize, page + 1, count + |latest|);
        PagedBelowLimit(server, url, json, limit, pageSize, page + 1, count + |latest|);
        assert r.sent == [req] + rest.sent && r.sent[1..] == rest.sent;
      }
    }
  }

  /** The server answered `req` without an error and with at least one item. */
  predicate NonEmptyPage(server: Server, req: Request, json: bool)
  {
    !IsHttpError(server(req).status) && |PageItems(server(req), json)| > 0
  }

  /** The page-number loop goes on only after a non-empty page. */
  lemma {:induction false} PagedContinues(server: Server, url: string, json: bool, limit: int, pageSize: int, page: int, count: int)
    ensures forall i :: 0 <= i && i + 1 < |PagedFrom(server, url, json, limit, pageSize, page, count).sent| ==>
      NonEmptyPage(server, PagedFrom(server, url, json, limit, pageSize, page, count).sent[i], json)
    decreases if count < limit then limit - count else 0
  {
    var r := PagedFrom(server, url, json, limit, pageSize, page, count);
    if count < limit {
      var req := Request(url, map[], pageSize, Some(page));
      var latest := PageItems(server(req), json);
      if IsHttpError(server(req).status) || |latest| == 0 {
        assert r.sent == [req];
      } else {
        var rest := PagedFrom(server, url, json, limit, pageSize, page + 1, count + |latest|);
        PagedContinues(server, url, json, limit, pageSize, page + 1, count + |latest|);
        assert r.sent == [req] + rest.sent;
        forall i | 0 <= i < |r.sent| - 1 ensures NonEmptyPage(server, r.sent[i], json) {
          if i > 0 { assert r.sent[i] == rest.sent[i - 1]; }
        }
      }
    }
  }

  /** A successful run of the page-number loop ends with `limit` results in hand or on an empty page. */
  lemma {:induction false} PagedEnds(server: Server, url: string, json: bool, limit: int, pageSize: int, page: int, count: int)
    ensures var r := PagedFrom(server, url, json, limit, pageSize, page, count);
      r.outcome.Success? ==>
        count + |AllItems(server, r.sent, json)| >= limit || |PageItems(server(r.sent[|r.sent| - 1]), json)| == 0
    decreases if count < limit then limit - count else 0
  {
    var r := PagedFrom(server, url, json, limit, pageSize, page, count);
    if count < limit {
      var req := Request(url, map[], pageSize, Some(page));
      var latest := PageItems(server(req), json);
      if IsHttpError(server(req).status) || |latest| == 0 {
        assert r.sent == [req];
      } else {
        var rest := PagedFrom(server, url, json, limit, pageSize, page + 1, count + |latest|);
        assert r == Prepend(req, latest, rest);
        PagedEnds(server, url, json, limit, pageSize, page + 1, count + |latest|);
        assert r.sent == [req] + rest.sent && r.sent[1..] == rest.sent;
        assert AllItems(server, r.sent, json) == latest + AllItems(server, rest.sent, json);
        if |rest.sent| > 0 {
          assert r.sent[|r.sent| - 1] == rest.sent[|rest.sent| - 1];
        }
      }
    }
  }

  /** For text formats every page is one item, so the loop makes exactly `limit` requests. */
  lemma {:induction false} PagedTextRequests(server: Server, url: string, limit: int, pageSize: int, page: int, count: int)
    requires forall req :: !IsHttpError(server(req).status)
    ensures var r := PagedFrom(server, url, false, limit, pageSize, page, count);
      r.outcome.Success? && |r.sent| == (if count < limit then limit - count else 0) && |r.outcome.value| == |r.sent|
    decreases if count < limit then limit - count else 0
  {
    if count < limit {
      PagedTextRequests(server, url, limit, pageSize, page + 1, count + 1);
    }
  }

  /** The results are not cut at `limit`: one page of two entries answers a limit of one with both. */
  lemma PagedOvershoots(url: string, a: Entry, b: Entry)
    ensures var server := (req: Request) => Response(200, [a, b], "", None, None);
      PagedFrom(server, url, true, 1, 1, 1, 0).outcome == Success([EntryItem(a), EntryItem(b)])
  {
    var server := (req: Request) => Response(200, [a, b], "", None, None);
    var r := PagedFrom(server, url, true, 1, 1, 1, 0);
    var latest := PageItems(server(Request(url, map[], 1, Some(1))), true);
    assert latest == [EntryItem(a), EntryItem(b)];
    assert PagedFrom(server, url, true, 1, 1, 2, 2) == Run(Success([]), []);
    assert latest + [] == latest;
  }

  /** The page-number `get` asks for pages of `min(limit, 2000)`, numbered from 1. */
  lemma PagedGetRequests(k: Kind, st: State, server: Server, limit: int)
    requires Url(k, st).Success?
    ensures var r := PagedGet(k, st, server, limit);
      forall i :: 0 <= i < |r.sent| ==> r.sent[i] == Request(Url(k, st).value, map[], Min(limit, MaxPageSize), Some(i + 1))
  {
    var url := Url(k, st).value;
    PagedRequests(server, url, st.format == "json", limit, Min(limit, MaxPageSize), 1, 0);
    assert PagedGet(k, st, server, limit) == PagedFrom(server, url, st.format == "json", limit, Min(limit, MaxPageSize), 1, 0);
  }

  // --------------------------------------------------------- hits, get_all

  /** `get_all` first asks for a page of size 0 with the query's headers, then runs `get` with the count. */
  lemma GetAllIsGetOfHits(k: Kind, st: State, server: Server)
    requires Url(k, st).Success?
    ensures var r := GetAll(k, st, server);
      && |r.sent| >= 1
      && r.sent[0] == Request(Url(k, st).value, st.headers, 0, None)
      && var h := server(r.sent[0]);
         if IsHttpError(h.status) then r.outcome == Failure(HttpError(h.status))
         else if h.hits.None? then r.outcome == Failure(KeyError("CMR-Hits"))
         else r == Run(Get(k, st, server, h.hits.value).outcome, [r.sent[0]] + Get(k, st, server, h.hits.value).sent)
  {
  }

  /** One more round of a loop moves its request and its items from the rest of the run to what is done. */
  lemma ExtendPrepend<T>(items: seq<T>, sent: seq<Request>, req: Request, page: seq<T>, rest: Run<seq<T>>)
    ensures Extend(items, sent, Prepend(req, page, rest)) == Extend(items + page, sent + [req], rest)
  {
    assert sent + ([req] + rest.sent) == sent + [req] + rest.sent;
    if rest.outcome.Success? {
      assert items + (page + rest.outcome.value) == items + page + rest.outcome.value;
    }
  }

  /** Before the first round nothing has been gathered or sent. */
  lemma ExtendNothing<T>(rest: Run<seq<T>>)
    ensures Extend([], [], rest) == rest
  {
    assert [] + rest.sent == rest.sent;
    if rest.outcome.Success? {
      assert [] + rest.outcome.value == rest.outcome.value;
    }
  }
}
