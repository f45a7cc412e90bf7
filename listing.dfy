/** `get_active_mobile_connections`: the listing filter, the page request, and the
    paginated accumulation loop, with the page fetch as an oracle. */
module Listing {
  import opened Wrappers
  import opened Text
  import opened Api
  import opened Auth

  const DefaultPageSize: nat := 5
  const ActiveFilter := "is_active:true"
  const DebtorFilter := " AND organization.debtor_code:"

  /** The filter query: active connections, optionally restricted to a debtor-code prefix. */
  function ListingQuery(debtorCode: Option<string>): string {
    if Truthy(debtorCode) then ActiveFilter + DebtorFilter + debtorCode.value + "*" else ActiveFilter
  }

  /** Recovers the debtor code from a filter query; `Some(None)` is the unrestricted query. */
  function ParseListingQuery(q: string): Option<Option<string>> {
    var head := ActiveFilter + DebtorFilter;
    if q == ActiveFilter then Some(None)
    else if head <= q && |q| > |head| + 1 && q[|q| - 1] == '*' then Some(Some(q[|head|..|q| - 1]))
    else None
  }

  lemma ParseListingQueryInverts(debtorCode: Option<string>)
    ensures ParseListingQuery(ListingQuery(debtorCode)) == Some(Normalize(debtorCode))
  {
    var q := ListingQuery(debtorCode);
    var head := ActiveFilter + DebtorFilter;
    if Truthy(debtorCode) {
      assert q == head + debtorCode.value + "*";
      assert q != ActiveFilter by { assert |q| > |ActiveFilter|; }
      assert head <= q;
      assert q[|head|..|q| - 1] == debtorCode.value;
    }
  }

  /** The query is `is_active:true` exactly when the debtor code is falsy, and two debtor
      codes give the same query exactly when they agree once falsy values are collapsed. */
  lemma ListingQueryCharacterised(a: Option<string>, b: Option<string>)
    ensures ListingQuery(a) == ActiveFilter <==> !Truthy(a)
    ensures ListingQuery(a) == ListingQuery(b) <==> Normalize(a) == Normalize(b)
  {
    ParseListingQueryInverts(a);
    ParseListingQueryInverts(b);
    ParseListingQueryInverts(None);
  }

  /** One page request: all three query-string parameters of the listing endpoint. */
  datatype ListingRequest = ListingRequest(pageSize: nat, page: nat, query: string)

  const SizeParam := "?page_size="
  const PageParam := "&page="
  const QueryParam := "&query="

  /** The page URL; the query is inserted as it is. */
  function ListingUrl(r: ListingRequest): string {
    (ConnectionsPath + SizeParam) + (NatToString(r.pageSize) + (PageParam + (NatToString(r.page) + (QueryParam + r.query))))
  }

  /** Reads back the request a listing URL encodes. */
  function ParseListingUrl(url: string): Option<ListingRequest> {
    var head := ConnectionsPath + SizeParam;
    if !(head <= url) then None
    else
      var (size, rest) := TakeUntil(url[|head|..], '&');
      if !(PageParam <= rest) then None
      else
        var (page, rest') := TakeUntil(rest[|PageParam|..], '&');
        if !(QueryParam <= rest') then None
        else match (ParseNat(size), ParseNat(page))
          case (Some(s), Some(p)) => Some(ListingRequest(s, p, rest'[|QueryParam|..]))
          case _ => None
  }

  /** Every listing request can be read back from its URL, whatever characters the query holds. */
  lemma ParseListingUrlInverts(r: ListingRequest)
    ensures ParseListingUrl(ListingUrl(r)) == Some(r)
  {
    var size, page := NatToString(r.pageSize), NatToString(r.page);
    var tail := QueryParam + r.query;
    var rest := PageParam + (page + tail);
    PrefixThenRest(ConnectionsPath + SizeParam, size + rest);
    IntToStringAvoids(r.pageSize, '&');
    TakeUntilUnique(size, rest, '&');
    PrefixThenRest(PageParam, page + tail);
    IntToStringAvoids(r.page, '&');
    TakeUntilUnique(page, tail, '&');
    PrefixThenRest(QueryParam, r.query);
    ParseNatToString(r.pageSize);
    ParseNatToString(r.page);
  }

  /** A decoded listing page; the `results` key may be absent. */
  datatype Page = Page(results: Option<seq<Connection>>)

  /** The HTTP status and decoded body of one listing response. */
  datatype ListingResponse = ListingResponse(status: int, body: Page)

  /** `raise_for_status`: client and server errors. */
  predicate IsHttpError(status: int) {
    400 <= status < 600
  }

  /** `data.get('results', [])`. */
  function Results(p: Page): seq<Connection> {
    p.results.GetOr([])
  }

  /** A response after which the loop requests no further page. */
  predicate Final(resp: ListingResponse, pageSize: nat) {
    IsHttpError(resp.status) || |Results(resp.body)| == 0 || |Results(resp.body)| < pageSize
  }

  /** The pages requested and what the traversal returns. */
  datatype Traversal = Traversal(requests: seq<ListingRequest>, outcome: Result<seq<Connection>, Error>)

  /** The traversal from `page` on. `last` is any page whose response ends the loop; it only
      bounds the recursion (see ListFromBoundIrrelevant). */
  function ListFrom(fetch: ListingRequest -> ListingResponse, pageSize: nat, query: string, page: nat, last: nat): Traversal
    requires page <= last
    requires Final(fetch(ListingRequest(pageSize, last, query)), pageSize)
    decreases last - page
  {
    var req := ListingRequest(pageSize, page, query);
    var resp := fetch(req);
    if IsHttpError(resp.status) then Traversal([req], Err(HttpError(resp.status)))
    else if |Results(resp.body)| == 0 then Traversal([req], Ok([]))
    else if |Results(resp.body)| < pageSize then Traversal([req], Ok(Results(resp.body)))
    else
      var rest := ListFrom(fetch, pageSize, query, page + 1, last);
      Traversal([req] + rest.requests,
              match rest.outcome
              case Ok(more) => Ok(Results(resp.body) + more)
              case Err(e) => Err(e))
  }

  function Concat(pages: seq<seq<Connection>>): seq<Connection> {
    if pages == [] then [] else pages[0] + Concat(pages[1..])
  }

  /** The result lists of the responses to `requests`, in order. */
  function PagesOf(fetch: ListingRequest -> ListingResponse, requests: seq<ListingRequest>): (pages: seq<seq<Connection>>)
    ensures |pages| == |requests|
    ensures forall i :: 0 <= i < |requests| ==> pages[i] == Results(fetch(requests[i]).body)
  {
    if requests == [] then [] else [Results(fetch(requests[0]).body)] + PagesOf(fetch, requests[1..])
  }

  /** Pages are requested as page, page + 1, ... without gaps, all with the same size and query,
      and never beyond `last`. */
  lemma {:induction false} ListFromRequests(fetch: ListingRequest -> ListingResponse, pageSize: nat, query: string, page: nat, last: nat)
    requires page <= last
    requires Final(fetch(ListingRequest(pageSize, last, query)), pageSize)
    ensures var l := ListFrom(fetch, pageSize, query, page, last);
            1 <= |l.requests| <= last - page + 1 &&
            forall i :: 0 <= i < |l.requests| ==> l.requests[i] == ListingRequest(pageSize, page + i, query)
    decreases last - page
  {
    var resp := fetch(ListingRequest(pageSize, page, query));
    if !Final(resp, pageSize) {
      ListFromRequests(fetch, pageSize, query, page + 1, last);
    }
  }

  /** Every page but the last was non-empty and full; the last one ended the loop. */
  lemma {:induction false} ListFromStops(fetch: ListingRequest -> ListingResponse, pageSize: nat, query: string, page: nat, last: nat)
    requires page <= last
    requires Final(fetch(ListingRequest(pageSize, last, query)), pageSize)
    ensures var l := ListFrom(fetch, pageSize, query, page, last);
            |l.requests| >= 1 &&
            (forall i :: 0 <= i < |l.requests| - 1 ==> !Final(fetch(l.requests[i]), pageSize)) &&
            Final(fetch(l.requests[|l.requests| - 1]), pageSize)
    decreases last - page
  {
    var resp := fetch(ListingRequest(pageSize, page, query));
    if !Final(resp, pageSize) {
      ListFromStops(fetch, pageSize, query, page + 1, last);
    }
  }

  /** The traversal fails with the status of the page that failed, which is the last one
      requested; otherwise it returns the in-order concatenation of every page requested
      (the short last page is included, an empty one adds nothing). */
  lemma {:induction false} ListFromOutcome(fetch: ListingRequest -> ListingResponse, pageSize: nat, query: string, page: nat, last: nat)
    requires page <= last
    requires Final(fetch(ListingRequest(pageSize, last, query)), pageSize)
    ensures var l := ListFrom(fetch, pageSize, query, page, last);
            |l.requests| >= 1 &&
            var status := fetch(l.requests[|l.requests| - 1]).status;
            l.outcome == if IsHttpError(status) then Err(HttpError(status)) else Ok(Concat(PagesOf(fetch, l.requests)))
    decreases last - page
  {
    var req := ListingRequest(pageSize, page, query);
    var resp := fetch(req);
    var l := ListFrom(fetch, pageSize, query, page, last);
    if !Final(resp, pageSize) {
      ListFromOutcome(fetch, pageSize, query, page + 1, last);
      var rest := ListFrom(fetch, pageSize, query, page + 1, last);
      assert l.requests == [req] + rest.requests;
      assert l.requests[|l.requests| - 1] == rest.requests[|rest.requests| - 1];
      PagesOfCons(fetch, req, rest.requests);
    } else {
      ListFromOutcomeFinal(fetch, pageSize, query, page, last);
    }
  }

  /** ListFromOutcome for a page that ends the loop: it is the only request. */
  lemma ListFromOutcomeFinal(fetch: ListingRequest -> ListingResponse, pageSize: nat, query: string, page: nat, last: nat)
    requires page <= last
    requires Final(fetch(ListingRequest(pageSize, last, query)), pageSize)
    requires Final(fetch(ListingRequest(pageSize, page, query)), pageSize)
    ensures var l := ListFrom(fetch, pageSize, query, page, last);
            l.requests == [ListingRequest(pageSize, page, query)] &&
            var status := fetch(l.requests[|l.requests| - 1]).status;
            l.outcome == if IsHttpError(status) then Err(HttpError(status)) else Ok(Concat(PagesOf(fetch, l.requests)))
  {
    var req := ListingRequest(pageSize, page, query);
    var resp := fetch(req);
    var l := ListFrom(fetch, pageSize, query, page, last);
    assert l.requests == [req];
    PagesOfCons(fetch, req, []);
    assert [req] + [] == [req];
    assert Concat(PagesOf(fetch, [])) == [];
    assert Results(resp.body) + [] == Results(resp.body);
    if |Results(resp.body)| == 0 {
      assert Results(resp.body) == [];
    }
  }

  lemma PagesOfCons(fetch: ListingRequest -> ListingResponse, req: ListingRequest, rest: seq<ListingRequest>)
    ensures Concat(PagesOf(fetch, [req] + rest)) == Results(fetch(req).body) + Concat(PagesOf(fetch, rest))
  {
    var pages := PagesOf(fetch, [req] + rest);
    assert ([req] + rest)[1..] == rest;
    assert pages[1..] == PagesOf(fetch, rest);
  }

  /** The bound only makes the recursion terminate: any two admissible bounds give the same traversal. */
  lemma {:induction false} ListFromBoundIrrelevant(fetch: ListingRequest -> ListingResponse, pageSize: nat, query: string, page: nat, last: nat, last': nat)
    requires page <= last && page <= last'
    requires Final(fetch(ListingRequest(pageSize, last, query)), pageSize)
    requires Final(fetch(ListingRequest(pageSize, last', query)), pageSize)
    ensures ListFrom(fetch, pageSize, query, page, last) == ListFrom(fetch, pageSize, query, page, last')
    decreases last - page
  {
    var resp := fetch(ListingRequest(pageSize, page, query));
    if !Final(resp, pageSize) {
      ListFromBoundIrrelevant(fetch, pageSize, query, page + 1, last, last');
    }
  }

  /** A first page that ends the loop is the only request, and its items (if it did not fail) are the result. */
  lemma FirstPageFinal(fetch: ListingRequest -> ListingResponse, pageSize: nat, query: string, last: nat)
    requires 1 <= last
    requires Final(fetch(ListingRequest(pageSize, last, query)), pageSize)
    requires Final(fetch(ListingRequest(pageSize, 1, query)), pageSize)
    ensures var first := fetch(ListingRequest(pageSize, 1, query));
            var l := ListFrom(fetch, pageSize, query, 1, last);
            l.requests == [ListingRequest(pageSize, 1, query)] &&
            l.outcome == if IsHttpError(first.status) then Err(HttpError(first.status)) else Ok(Results(first.body))
  {
  }

  /** The traversal state `(requests, acc)` followed by the traversal of the remaining pages. */
  function Join(requests: seq<ListingRequest>, acc: seq<Connection>, rest: Traversal): Traversal {
    Traversal(requests + rest.requests,
            match rest.outcome
            case Ok(more) => Ok(acc + more)
            case Err(e) => Err(e))
  }

  lemma JoinEmpty(rest: Traversal)
    ensures Join([], [], rest) == rest
  {
    assert [] + rest.requests == rest.requests;
    if rest.outcome.Ok? {
      assert [] + rest.outcome.value == rest.outcome.value;
    }
  }

  /** One step of the loop: the page at `page` is requested and, unless it ends the loop,
      its items are appended and the traversal continues with the next page. */
  lemma JoinStep(fetch: ListingRequest -> ListingResponse, pageSize: nat, query: string, page: nat, last: nat,
                 requests: seq<ListingRequest>, acc: seq<Connection>)
    requires page <= last
    requires Final(fetch(ListingRequest(pageSize, last, query)), pageSize)
    ensures var req := ListingRequest(pageSize, page, query);
            var resp := fetch(req);
            var j := Join(requests, acc, ListFrom(fetch, pageSize, query, page, last));
            (IsHttpError(resp.status) ==> j == Traversal(requests + [req], Err(HttpError(resp.status)))) &&
            (!IsHttpError(resp.status) && Final(resp, pageSize) ==> j == Traversal(requests + [req], Ok(acc + Results(resp.body)))) &&
            (!Final(resp, pageSize) ==>
               page + 1 <= last &&
               j == Join(requests + [req], acc + Results(resp.body), ListFrom(fetch, pageSize, query, page + 1, last)))
  {
    var req := ListingRequest(pageSize, page, query);
    var resp := fetch(req);
    if !Final(resp, pageSize) {
      var rest := ListFrom(fetch, pageSize, query, page + 1, last);
      assert requests + ([req] + rest.requests) == requests + [req] + rest.requests;
      if rest.outcome.Ok? {
        assert acc + (Results(resp.body) + rest.outcome.value) == acc + Results(resp.body) + rest.outcome.value;
      }
    } else if !IsHttpError(resp.status) && |Results(resp.body)| == 0 {
      assert acc + [] == acc + Results(resp.body);
    }
  }

  /** The `while True` loop of main.py lines 34-56, with the query already built. */
  method Paginate(fetch: ListingRequest -> ListingResponse, pageSize: nat, query: string, ghost last: nat)
    returns (requests: seq<ListingRequest>, outcome: Result<seq<Connection>, Error>)
    requires 1 <= last
    requires Final(fetch(ListingRequest(pageSize, last, query)), pageSize)
    ensures Traversal(requests, outcome) == ListFrom(fetch, pageSize, query, 1, last)
  {
    var allConnections: seq<Connection> := [];
    var page: nat := 1;
    requests := [];
    JoinEmpty(ListFrom(fetch, pageSize, query, 1, last));
    while true
      invariant 1 <= page <= last
      invariant ListFrom(fetch, pageSize, query, 1, last) == Join(requests, allConnections, ListFrom(fetch, pageSize, query, page, last))
      decreases last - page
    {
      var req := ListingRequest(pageSize, page, query);
      var response := fetch(req);
      JoinStep(fetch, pageSize, query, page, last, requests, allConnections);
      requests := requests + [req];
      if IsHttpError(response.status) {
        return requests, Err(HttpError(response.status));
      }
      var connections := Results(response.body);
      if |connections| == 0 {
        assert allConnections + connections == allConnections;
        break;
      }
      allConnections := allConnections + connections;
      if |connections| < pageSize {
        break;
      }
      page := page + 1;
    }
    outcome := Ok(allConnections);
  }

  /** `get_active_mobile_connections`: obtain the bearer token, build the query, traverse the pages. */
  method GetActiveMobileConnections(cache: TokenCache, exchange: Credentials -> LoginResponse, credentials: Credentials,
                                    fetch: ListingRequest -> ListingResponse, debtorCode: Option<string>, pageSize: nat,
                                    ghost last: nat)
    returns (requests: seq<ListingRequest>, r: Result<seq<Connection>, Error>)
    requires 1 <= last
    requires Final(fetch(ListingRequest(pageSize, last, ListingQuery(debtorCode))), pageSize)
    modifies cache
    ensures cache.slot == SlotAfter(old(cache.slot), exchange(credentials))
    ensures cache.exchanges == if old(cache.slot).Some? then old(cache.exchanges) else old(cache.exchanges) + 1
    ensures match Acquire(old(cache.slot), exchange(credentials))
            case Err(e) => requests == [] && r == Err(e)
            case Ok(_) => Traversal(requests, r) == ListFrom(fetch, pageSize, ListingQuery(debtorCode), 1, last)
  {
    var token := cache.GetAccessToken(exchange, credentials);
    if token.Err? {
      return [], Err(token.error);
    }
    var query := ListingQuery(debtorCode);
    requests, r := Paginate(fetch, pageSize, query, last);
  }
}
