/** The gates between the HTTP layer and the dashboard: a base URL is
    normalised, and each fetch helper keeps a response body only when the
    status is 200 and the body has the shape the caller expects. */
module Fetch {
  import opened Wrappers
  import opened Json

  /** What `request_json` returns: the HTTP status (0 for a transport
      failure) and the parsed body (`JNull` for an empty or missing body). */
  datatype Outcome = Outcome(status: int, body: Json)

  /** True when `s` ends with a slash. */
  predicate EndsWithSlash(s: string)
  {
    |s| > 0 && s[|s| - 1] == '/'
  }

  /** `api_base_url.rstrip("/")`: drop every trailing slash. */
  function NormalizeBaseUrl(url: string): (r: string)
    ensures |r| <= |url| && r == url[..|r|]
    ensures !EndsWithSlash(r)
    ensures forall i :: |r| <= i < |url| ==> url[i] == '/'
  {
    if EndsWithSlash(url) then NormalizeBaseUrl(url[..|url| - 1]) else url
  }

  /** Normalising twice is normalising once. */
  lemma NormalizeIdempotent(url: string)
    ensures NormalizeBaseUrl(NormalizeBaseUrl(url)) == NormalizeBaseUrl(url)
  {
  }

  /** A URL is left alone by normalisation exactly when it has no trailing slash. */
  lemma NormalizeFixedPoint(url: string)
    ensures NormalizeBaseUrl(url) == url <==> !EndsWithSlash(url)
  {
  }

  /** Gate of `fetch_orderbook` and `fetch_portfolio`: the body object when
      the status is 200 and the body is a dict, None otherwise. */
  function ObjectBody(o: Outcome): (r: Option<Fields>)
    ensures r.Some? <==> o.status == 200 && o.body.JObj?
    ensures r.Some? ==> o.body == JObj(r.value)
  {
    if o.status == 200 && o.body.JObj? then Some(o.body.fields) else None
  }

  /** `fetch_orderbook` with the network call replaced by its outcome. */
  function FetchOrderbook(o: Outcome): (r: Option<Fields>)
    ensures r.Some? <==> o.status == 200 && o.body.JObj?
    ensures r.Some? ==> o.body == JObj(r.value)
  {
    ObjectBody(o)
  }

  /** `fetch_portfolio` with the network call replaced by its outcome. */
  function FetchPortfolio(o: Outcome): (r: Option<Fields>)
    ensures r.Some? <==> o.status == 200 && o.body.JObj?
    ensures r.Some? ==> o.body == JObj(r.value)
  {
    ObjectBody(o)
  }

  /** `fetch_opportunities` with the network call replaced by its outcome:
      the list when the status is 200 and the body is a list, `[]` otherwise. */
  function FetchOpportunities(o: Outcome): (r: seq<Json>)
    ensures o.status == 200 && o.body.JArr? ==> r == o.body.items
    ensures !(o.status == 200 && o.body.JArr?) ==> r == []
  {
    if o.status == 200 && o.body.JArr? then o.body.items else []
  }

  /** A transport failure or any non-200 status degrades to "no data" in
      all three gates, whatever body came with it. */
  lemma NonOkDegrades(o: Outcome)
    requires o.status != 200
    ensures FetchOrderbook(o) == None && FetchPortfolio(o) == None
    ensures FetchOpportunities(o) == []
  {
  }

  /** Scenario of a refused connection: status 0 and no body render as empty. */
  lemma RefusedConnectionIsEmpty()
    ensures FetchOpportunities(Outcome(0, JNull)) == []
    ensures FetchOrderbook(Outcome(0, JNull)) == None
  {
  }
}
