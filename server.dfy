/**
  The local Express server (server.js): the county list for a state, and a plan-search route
  that does what the serverless plan-search endpoint does for a POST.
 */
module Server {
  import opened Wrappers
  import opened PlanRecord
  import opened PlanSearchHandler

  /** The lookup behind `/api/counties/:state`: every county of the state, up to 1000 rows. */
  function CountiesQuery(state: string): (q: CountyQuery)
    ensures q.where.stateAbbreviation == Some(state) && q.where.countyName.None?
    ensures q.limit == 1000
  {
    CountyQuery(CountyFilter(Some(state), None), 1000)
  }

  /** `results.map(item => item.countyName)`. */
  function CountyNames(results: seq<County>): (names: seq<string>)
    ensures |names| == |results|
    ensures forall i :: 0 <= i < |results| ==> names[i] == results[i].countyName
  {
    seq(|results|, i requires 0 <= i < |results| => results[i].countyName)
  }

  /** Listing the counties of two batches of rows is listing each batch in turn. */
  lemma CountyNamesAppend(a: seq<County>, b: seq<County>)
    ensures CountyNames(a + b) == CountyNames(a) + CountyNames(b)
  {
  }

  const CountiesErrorText := "Failed to fetch counties"
  const UnexpectedFormatMessage := "Unexpected response format from Back4App API"

  /** `GET /api/counties/:state`, with the Back4App answer as input. */
  function CountiesRoute(state: string, lookup: LookupReply): (r: Outcome)
    ensures r.calls == [Lookup(CountiesQuery(state))]
    ensures r.response.status == 200 <==> lookup.LookupAnswered? && lookup.results.Some?
    ensures r.response.status == 200 ==> r.response.body == Names(CountyNames(lookup.results.value))
    ensures r.response.status != 200 ==>
      r.response.status == 500 && r.response.body.FailureJson? && r.response.body.error == CountiesErrorText
    ensures lookup.LookupAnswered? && lookup.results.None? ==>
      r.response.body == FailureJson(CountiesErrorText, UnexpectedFormatMessage)
    ensures lookup.LookupFailed? ==> r.response.body == FailureJson(CountiesErrorText, lookup.failure.message)
  {
    var calls := [Lookup(CountiesQuery(state))];
    match lookup
    case LookupFailed(failure) =>
      Outcome(Response(500, None, FailureJson(CountiesErrorText, failure.message)), calls)
    case LookupAnswered(results) =>
      if results.None? then
        Outcome(Response(500, None, FailureJson(CountiesErrorText, UnexpectedFormatMessage)), calls)
      else
        Outcome(Response(200, None, Names(CountyNames(results.value))), calls)
  }

  /** A state with no county rows is not an error: the list is empty. */
  lemma NoRowsNoCounties(state: string)
    ensures CountiesRoute(state, LookupAnswered(Some([]))).response == Response(200, None, Names([]))
  {
  }

  /**
    `POST /api/insurance-plans`: the same try block and error record as the serverless
    endpoint; `res.json` answers with the default status 200.
   */
  function PlanRoute(body: SearchBody, apiKeySet: bool, lookup: LookupReply, search: SearchReply): (r: Outcome)
    ensures r.response.status == 200 || r.response.status == 500
    ensures |r.calls| > 0 && r.calls[0] == Lookup(CountyQuery(CountyFilter(body.state, body.county), 1))
  {
    Respond(TrySearch(body, lookup, search), apiKeySet)
  }

  /**
    For a POST with a JSON object body, the server route and the serverless endpoint give the
    same response and make the same calls.
   */
  lemma PlanRouteAgrees(body: SearchBody, apiKeySet: bool, lookup: LookupReply, search: SearchReply)
    ensures PlanRoute(body, apiKeySet, lookup, search) == HandleRequest("POST", Some(body), apiKeySet, lookup, search)
  {
  }

  /** What `express.json()` leaves in `req.body` for a request without a JSON body: `{}`. */
  const EmptyJsonBody := SearchBody(None, None, None, None, None, None, None)

  /**
    Without a JSON body the two routes part: the server reads `{}` and makes the unfiltered
    county lookup, while the serverless endpoint throws on the undefined body before any call.
   */
  lemma NoBodyRoutesDiffer(apiKeySet: bool, lookup: LookupReply, search: SearchReply)
    ensures PlanRoute(EmptyJsonBody, apiKeySet, lookup, search).calls[0] == Lookup(CountyQuery(CountyFilter(None, None), 1))
    ensures HandleRequest("POST", None, apiKeySet, lookup, search).calls == []
    ensures HandleRequest("POST", None, apiKeySet, lookup, search).response.status == 500
  {
  }
}
