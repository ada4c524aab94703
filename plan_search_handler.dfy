/**
  The plan-search endpoint (api/insurance-plans.js). A POST body names a household, a state
  and a county; the handler looks the county up in Back4App, joins its two codes into the
  county FIPS code, posts a request to the marketplace plan search and answers with the plans,
  or with a 500 error record. The two upstream answers are inputs; the calls the handler makes
  are returned as a trace, so "no call was made" is a statement about that trace.
 */
module PlanSearchHandler {
  import opened Wrappers
  import opened JsBuiltins
  import opened PlanRecord
  import opened InsuranceSearchForm
  import App

  // ------------------------------------------------------------ request

  /** `req.body`; `None` is a key that is absent (undefined). */
  datatype SearchBody = SearchBody(
    income: Option<string>,
    zipCode: Option<string>,
    county: Option<string>,
    state: Option<string>,
    people: Option<seq<Person>>,
    market: Option<string>,
    year: Option<string>)   // a numeric year reaches parseInt as its decimal text

  // ---------------------------------------------------------- upstreams

  /** A row of the `Uscounties_Area` class. */
  datatype County = County(fipsCode: string, countyCode: string, countyName: string)

  /** The `where` filter of a county lookup; `None` is a key that `JSON.stringify` leaves out. */
  datatype CountyFilter = CountyFilter(stateAbbreviation: Option<string>, countyName: Option<string>)

  datatype CountyQuery = CountyQuery(where: CountyFilter, limit: nat)

  /** `error.response` of a failed HTTP call: the status and the body the server sent. */
  datatype HttpResponse = HttpResponse(status: nat, data: string)

  /** A thrown error: its `message`, and `response` when an upstream server answered. */
  datatype Failure = Failure(message: string, response: Option<HttpResponse>)

  /** What the Back4App lookup gave: a failure, or `data.results` (`None` when missing). */
  datatype LookupReply = LookupFailed(failure: Failure) | LookupAnswered(results: Option<seq<County>>)

  /** What the marketplace search gave: a failure, or `data.plans` when it is an array. */
  datatype SearchReply = SearchFailed(failure: Failure) | SearchAnswered(plans: Option<seq<Plan>>)

  /** One entry of `household.people` in the marketplace request. */
  datatype MarketPerson = MarketPerson(age: Number, aptcEligible: Option<Field>, gender: Option<Field>, usesTobacco: Option<Field>)

  datatype Household = Household(income: Number, people: seq<MarketPerson>)

  datatype Place = Place(countyfips: string, state: Option<string>, zipcode: Option<string>)

  /** The body posted to the marketplace plan search. */
  datatype MarketRequest = MarketRequest(household: Household, market: Option<string>, place: Place, year: Number)

  /** An upstream call, in the order made. */
  datatype Call = Lookup(query: CountyQuery) | Search(request: MarketRequest)

  // ----------------------------------------------------------- response

  /** The error record of the catch block. */
  datatype ErrorRecord = ErrorRecord(
    error: string,
    details: string,
    apiKey: string,
    statusCode: Option<nat>,
    apiResponse: Option<string>)

  datatype Body =
    | PlainText(text: string)
    | Plans(plans: seq<Plan>)
    | ErrorJson(record: ErrorRecord)
    | Names(names: seq<string>)
    | FailureJson(error: string, details: string)

  datatype Response = Response(status: nat, allow: Option<seq<string>>, body: Body)

  /** The response together with the upstream calls made while producing it. */
  datatype Outcome = Outcome(response: Response, calls: seq<Call>)

  const CountyNotFoundMessage := "County not found in Back4App data"
  const InvalidPlansMessage := "Invalid response format from Marketplace API"
  const FetchErrorText := "An error occurred while fetching insurance plans"
  /** The TypeError of destructuring an undefined `req.body` (V8's wording). */
  const BodyMissingMessage := "Cannot destructure property 'income' of 'req.body' as it is undefined."
  /** The TypeError of `people.map` when the body has no `people` (V8's wording). */
  const PeopleMissingMessage := "Cannot read properties of undefined (reading 'map')"

  // ----------------------------------------------------------- reshaping

  /** `parseInt` of a body value; an absent value parses to NaN. */
  function ParseOptional(s: Option<string>): (n: Number)
    ensures s.None? ==> n.NaN?
    ensures n.Finite? ==> -DoubleOverflow < n.v < DoubleOverflow
  {
    match s
    case None => NaN
    case Some(t) => ParseInt(t)
  }

  /** The lookup for the body's county: state and county name, at most one row. */
  function CountyLookup(body: SearchBody): CountyQuery {
    CountyQuery(CountyFilter(body.state, body.county), 1)
  }

  /** `countyData.FIPSCode + countyData.countyCode`. */
  function Fips(c: County): (s: string)
    ensures |s| == |c.fipsCode| + |c.countyCode|
    ensures s[..|c.fipsCode|] == c.fipsCode && s[|c.fipsCode|..] == c.countyCode
  {
    c.fipsCode + c.countyCode
  }

  /** A two-digit state code and a three-digit county code join into a five-digit county FIPS code. */
  lemma FipsOfStandardCodes(c: County)
    requires |c.fipsCode| == 2 && AllDigits(c.fipsCode)
    requires |c.countyCode| == 3 && AllDigits(c.countyCode)
    ensures |Fips(c)| == 5 && AllDigits(Fips(c))
  {
    var s := Fips(c);
    forall i | 0 <= i < |s| ensures IsDigit(s[i]) {
      if i < 2 {
        assert s[i] == c.fipsCode[i];
      } else {
        assert s[i] == c.countyCode[i - 2];
      }
    }
  }

  /** The person mapping: age parsed, `eligibleForCoverage` as `aptc_eligible`, `tobaccoUser` as `uses_tobacco`. */
  function MarketPersonOf(p: Person): (m: MarketPerson)
    ensures m.age == AgeOf(p)
    ensures m.aptcEligible == Get(p, "eligibleForCoverage") && m.gender == Get(p, "gender")
    ensures m.usesTobacco == Get(p, "tobaccoUser")
  {
    MarketPerson(AgeOf(p), Get(p, "eligibleForCoverage"), Get(p, "gender"), Get(p, "tobaccoUser"))
  }

  /** `people.map(...)`: one entry per person, in the same order. */
  function MapPeople(people: seq<Person>): (r: seq<MarketPerson>)
    ensures |r| == |people|
    ensures forall i :: 0 <= i < |people| ==> r[i] == MarketPersonOf(people[i])
  {
    seq(|people|, i requires 0 <= i < |people| => MarketPersonOf(people[i]))
  }

  /** A person with a valid age on the search form reaches the marketplace with that age. */
  lemma ValidAgeIsSent(p: Person)
    requires PersonValid(p)
    ensures MarketPersonOf(p).age.Finite? && 0 <= MarketPersonOf(p).age.v <= 120
  {
  }

  /** `requestBody`. */
  function BuildRequest(body: SearchBody, fips: string, people: seq<Person>): (r: MarketRequest)
    ensures r.household.income == ParseOptional(body.income) && r.year == ParseOptional(body.year)
    ensures r.household.people == MapPeople(people)
    ensures r.market == body.market
    ensures r.place == Place(fips, body.state, body.zipCode)
  {
    MarketRequest(
      Household(ParseOptional(body.income), MapPeople(people)),
      body.market,
      Place(fips, body.state, body.zipCode),
      ParseOptional(body.year))
  }

  // ----------------------------------------------------------- the handler

  /** How the try block ended. */
  datatype TryResult = Threw(error: Failure) | Found(plans: seq<Plan>)

  datatype Attempt = Attempt(result: TryResult, calls: seq<Call>)

  /**
    The try block: the lookup, the county check, the request, the marketplace call and the
    plans check. Every failure ends it with the error it throws.
   */
  function TrySearch(body: SearchBody, lookup: LookupReply, search: SearchReply): (a: Attempt)
    ensures 1 <= |a.calls| <= 2 && a.calls[0] == Lookup(CountyLookup(body))
    ensures |a.calls| == 2 <==>
      lookup.LookupAnswered? && lookup.results.Some? && |lookup.results.value| > 0 && body.people.Some?
    ensures |a.calls| == 2 ==>
      a.calls[1] == Search(BuildRequest(body, Fips(lookup.results.value[0]), body.people.value))
    ensures a.result.Found? <==> |a.calls| == 2 && search.SearchAnswered? && search.plans.Some?
    ensures a.result.Found? ==> a.result.plans == search.plans.value
  {
    var calls := [Lookup(CountyLookup(body))];
    match lookup
    case LookupFailed(failure) => Attempt(Threw(failure), calls)
    case LookupAnswered(results) =>
      if results.None? || |results.value| == 0 then
        Attempt(Threw(Failure(CountyNotFoundMessage, None)), calls)
      else if body.people.None? then
        Attempt(Threw(Failure(PeopleMissingMessage, None)), calls)
      else
        var request := BuildRequest(body, Fips(results.value[0]), body.people.value);
        var both := calls + [Search(request)];
        match search
        case SearchFailed(failure) => Attempt(Threw(failure), both)
        case SearchAnswered(plans) =>
          if plans.None? then Attempt(Threw(Failure(InvalidPlansMessage, None)), both)
          else Attempt(Found(plans.value), both)
  }

  /** The catch block's response: always 500, the upstream status and body only when there was a response. */
  function ErrorResponse(error: Failure, apiKeySet: bool): (r: Response)
    ensures r.status == 500 && r.allow.None? && r.body.ErrorJson?
    ensures r.body.record.error == FetchErrorText && r.body.record.details == error.message
    ensures r.body.record.apiKey == (if apiKeySet then "API key is set" else "API key is not set")
    ensures r.body.record.statusCode.Some? <==> error.response.Some?
    ensures r.body.record.apiResponse.Some? <==> error.response.Some?
    ensures error.response.Some? ==>
      r.body.record.statusCode == Some(error.response.value.status)
      && r.body.record.apiResponse == Some(error.response.value.data)
  {
    var record := ErrorRecord(FetchErrorText, error.message, if apiKeySet then "API key is set" else "API key is not set", None, None);
    var record := match error.response
      case None => record
      case Some(resp) => record.(statusCode := Some(resp.status), apiResponse := Some(resp.data));
    Response(500, None, ErrorJson(record))
  }

  /** The response once the try block has ended: 200 with the plans, or the catch block's record. */
  function Respond(a: Attempt, apiKeySet: bool): Outcome {
    match a.result
    case Found(plans) => Outcome(Response(200, None, Plans(plans)), a.calls)
    case Threw(error) => Outcome(ErrorResponse(error, apiKeySet), a.calls)
  }

  /**
    The whole handler; `verb` is `req.method`, `body` is `req.body` (`None` when the platform
    leaves it undefined), `apiKeySet` whether the marketplace key is configured.
   */
  function HandleRequest(verb: string, body: Option<SearchBody>, apiKeySet: bool, lookup: LookupReply, search: SearchReply): (r: Outcome)
    ensures verb != "POST" ==>
      r.calls == [] && r.response == Response(405, Some(["POST"]), PlainText("Method " + verb + " Not Allowed"))
    ensures verb == "POST" && body.Some? ==> |r.calls| > 0 && r.calls[0] == Lookup(CountyLookup(body.value))
    ensures verb == "POST" && body.None? ==>
      r.calls == [] && r.response == ErrorResponse(Failure(BodyMissingMessage, None), apiKeySet)
    ensures verb == "POST" ==> r.response.status == 200 || r.response.status == 500
  {
    if verb != "POST" then
      Outcome(Response(405, Some(["POST"]), PlainText("Method " + verb + " Not Allowed")), [])
    else match body
      case None => Outcome(ErrorResponse(Failure(BodyMissingMessage, None), apiKeySet), [])
      case Some(b) => Respond(TrySearch(b, lookup, search), apiKeySet)
  }

  // ------------------------------------------------------------ properties

  /** The handler answers 200 exactly when the county was found, people were given and plans came back; it then passes them on unchanged. */
  lemma SuccessIff(body: SearchBody, apiKeySet: bool, lookup: LookupReply, search: SearchReply)
    ensures var r := HandleRequest("POST", Some(body), apiKeySet, lookup, search);
      (r.response.status == 200 <==>
        lookup.LookupAnswered? && lookup.results.Some? && |lookup.results.value| > 0
        && body.people.Some? && search.SearchAnswered? && search.plans.Some?)
      && (r.response.status == 200 ==> r.response.body == Plans(search.plans.value))
  {
  }

  /** A missing or empty county result is a 500 naming the county, and the marketplace is never called. */
  lemma CountyNotFound(body: SearchBody, apiKeySet: bool, results: Option<seq<County>>, search: SearchReply)
    requires results.None? || results.value == []
    ensures var r := HandleRequest("POST", Some(body), apiKeySet, LookupAnswered(results), search);
      && r.response.status == 500
      && r.response.body.ErrorJson? && r.response.body.record.details == CountyNotFoundMessage
      && r.response.body.record.statusCode.None?
      && r.calls == [Lookup(CountyLookup(body))]
  {
  }

  /** The marketplace request carries the joined FIPS code and one entry per person, in order. */
  lemma RequestShape(body: SearchBody, apiKeySet: bool, lookup: LookupReply, search: SearchReply)
    requires lookup.LookupAnswered? && lookup.results.Some? && |lookup.results.value| > 0 && body.people.Some?
    ensures var r := HandleRequest("POST", Some(body), apiKeySet, lookup, search);
      && |r.calls| == 2 && r.calls[1].Search?
      && r.calls[1].request.place.countyfips == Fips(lookup.results.value[0])
      && |r.calls[1].request.household.people| == |body.people.value|
      && forall i :: 0 <= i < |body.people.value| ==>
           r.calls[1].request.household.people[i] == MarketPersonOf(body.people.value[i])
  {
  }

  /** `statusCode` and `apiResponse` are reported exactly when an upstream call failed with a response. */
  lemma ErrorCarriesUpstreamStatus(body: SearchBody, apiKeySet: bool, lookup: LookupReply, search: SearchReply)
    ensures var r := HandleRequest("POST", Some(body), apiKeySet, lookup, search);
      r.response.status == 500 ==>
        && r.response.body.ErrorJson?
        && (r.response.body.record.statusCode.Some? <==>
             (lookup.LookupFailed? && lookup.failure.response.Some?)
             || (|r.calls| == 2 && search.SearchFailed? && search.failure.response.Some?))
  {
  }

  /**
    The body the results page posts after the questionnaire: the answers it copies, and no
    state, county, people or year, which the questionnaire does not ask under those names.
   */
  function ConsultationBody(r: App.ConsultationRequest): (b: SearchBody)
    ensures b.state.None? && b.county.None? && b.people.None? && b.year.None?
    ensures b.income == r.income && b.zipCode == r.zipCode && b.market == r.market
  {
    SearchBody(r.income, r.zipCode, None, None, None, r.market, None)
  }

  /**
    Whatever the upstreams answer, a search built from the questionnaire fails with a 500: the
    county lookup is unfiltered, and the missing `people` list throws before the marketplace
    is called.
   */
  lemma ConsultationSearchFails(answers: map<string, string>, apiKeySet: bool, lookup: LookupReply, search: SearchReply)
    ensures var r := HandleRequest("POST", Some(ConsultationBody(App.BuildConsultationRequest(answers))), apiKeySet, lookup, search);
      && r.response.status == 500
      && r.calls == [Lookup(CountyQuery(CountyFilter(None, None), 1))]
  {
  }
}
