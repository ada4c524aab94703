/**
  The results page (src/App.js): it keeps the plans of the last search, the plans currently
  shown, the filter options and slider bounds derived from the plans, and an error text.
  Filtering always starts again from the full list; sorting reorders the shown list.
 */
module App {
  import opened Wrappers
  import opened JsBuiltins
  import opened PlanRecord
  import opened InsuranceFilterComponent

  // ------------------------------------------------------------- filtering

  /** An empty selection list lets every value through; otherwise the value must be selected. */
  predicate CategoryAccepts(selected: seq<string>, value: string) {
    |selected| == 0 || value in selected
  }

  /** `x >= range[0] && x <= range[1]`, with JavaScript comparisons (false against NaN). */
  predicate InRange(r: Range, x: int) {
    LessEq(r.low, Finite(x)) && LessEq(Finite(x), r.high)
  }

  /** The conjuncts before `plan.deductibles[0].amount` all hold, so that expression is evaluated. */
  predicate ReachesDeductible(f: Filters, p: Plan) {
    && CategoryAccepts(f.metalLevels, p.metalLevel)
    && CategoryAccepts(f.planTypes, p.planType)
    && CategoryAccepts(f.issuers, p.issuerName)
    && InRange(f.premium, p.premium)
  }

  /** The filter callback throws a TypeError on this plan: it has no first deductible to read. */
  predicate Throws(f: Filters, p: Plan) {
    ReachesDeductible(f, p) && !HasDeductible(p)
  }

  /** The plan passes every condition of the filter callback. */
  predicate Matches(f: Filters, p: Plan) {
    && ReachesDeductible(f, p)
    && HasDeductible(p)
    && InRange(f.deductible, p.deductibles[0])
    && (!f.hsaEligible || p.hsaEligible)
    && (!f.hasNationalNetwork || p.hasNationalNetwork)
  }

  /** `a` is `b` with some elements left out, the rest in their order. */
  predicate SubsequenceOf(a: seq<Plan>, b: seq<Plan>)
    decreases |b|
  {
    if a == [] then true
    else if b == [] then false
    else (a[0] == b[0] && SubsequenceOf(a[1..], b[1..])) || SubsequenceOf(a, b[1..])
  }

  /**
    `plans.filter(callback)`: `None` when the callback throws on some plan; otherwise the
    matching plans, every copy of each, in their original order.
   */
  function FilterPlans(plans: seq<Plan>, f: Filters): (r: Option<seq<Plan>>)
    ensures r.None? <==> exists i :: 0 <= i < |plans| && Throws(f, plans[i])
    ensures r.Some? ==> SubsequenceOf(r.value, plans)
    ensures r.Some? ==> forall p :: multiset(r.value)[p] == if Matches(f, p) then multiset(plans)[p] else 0
  {
    if plans == [] then Some([])
    else if Throws(f, plans[0]) then None
    else
      var rest := FilterPlans(plans[1..], f);
      assert forall i :: 1 <= i < |plans| ==> plans[i] == plans[1..][i - 1];
      assert plans == [plans[0]] + plans[1..];
      if rest.None? then None
      else if Matches(f, plans[0]) then Some([plans[0]] + rest.value)
      else Some(rest.value)
  }

  /** A plan is in the result exactly when it was in the list and matches. */
  lemma FilterMembership(plans: seq<Plan>, f: Filters, p: Plan)
    requires FilterPlans(plans, f).Some?
    ensures p in FilterPlans(plans, f).value <==> p in plans && Matches(f, p)
  {
    var r := FilterPlans(plans, f).value;
    assert p in r <==> multiset(r)[p] > 0;
    assert p in plans <==> multiset(plans)[p] > 0;
  }

  /** When every plan matches, filtering returns the list unchanged. */
  lemma {:induction false} FilterKeepsAllMatching(plans: seq<Plan>, f: Filters)
    requires forall i :: 0 <= i < |plans| ==> Matches(f, plans[i])
    ensures FilterPlans(plans, f) == Some(plans)
  {
    if plans != [] {
      FilterKeepsAllMatching(plans[1..], f);
      assert plans == [plans[0]] + plans[1..];
    }
  }

  /** A bound typed as text that does not parse (NaN) makes every plan fail the range test. */
  lemma NaNBoundMatchesNothing(f: Filters, p: Plan)
    requires f.premium.low.NaN? || f.premium.high.NaN? || f.deductible.low.NaN? || f.deductible.high.NaN?
    ensures !Matches(f, p)
  {
  }

  // ------------------------------------------------------- filter options

  datatype FilterOptions = FilterOptions(issuers: seq<string>, planTypes: seq<string>, metalLevels: seq<string>)

  const NoOptions := FilterOptions([], [], [])

  function IssuerNames(plans: seq<Plan>): (r: seq<string>)
    ensures |r| == |plans| && forall i :: 0 <= i < |plans| ==> r[i] == plans[i].issuerName
  {
    seq(|plans|, i requires 0 <= i < |plans| => plans[i].issuerName)
  }

  function PlanTypes(plans: seq<Plan>): (r: seq<string>)
    ensures |r| == |plans| && forall i :: 0 <= i < |plans| ==> r[i] == plans[i].planType
  {
    seq(|plans|, i requires 0 <= i < |plans| => plans[i].planType)
  }

  function MetalLevels(plans: seq<Plan>): (r: seq<string>)
    ensures |r| == |plans| && forall i :: 0 <= i < |plans| ==> r[i] == plans[i].metalLevel
  {
    seq(|plans|, i requires 0 <= i < |plans| => plans[i].metalLevel)
  }

  /** `[...new Set(plans.map(...))]` for issuer name, plan type and metal level. */
  function OptionsOf(plans: seq<Plan>): (o: FilterOptions)
    ensures NoDuplicates(o.issuers) && NoDuplicates(o.planTypes) && NoDuplicates(o.metalLevels)
    ensures forall i :: 0 <= i < |plans| ==>
      plans[i].issuerName in o.issuers && plans[i].planType in o.planTypes && plans[i].metalLevel in o.metalLevels
    ensures forall k :: 0 <= k < |o.issuers| ==> o.issuers[k] in IssuerNames(plans)
    ensures forall k :: 0 <= k < |o.planTypes| ==> o.planTypes[k] in PlanTypes(plans)
    ensures forall k :: 0 <= k < |o.metalLevels| ==> o.metalLevels[k] in MetalLevels(plans)
  {
    FilterOptions(Distinct(IssuerNames(plans)), Distinct(PlanTypes(plans)), Distinct(MetalLevels(plans)))
  }

  /** The issuers are listed in the order in which each first appears among the plans. */
  lemma IssuersInFirstOccurrenceOrder(plans: seq<Plan>)
    ensures var names := IssuerNames(plans);
            forall i, j :: 0 <= i < j < |OptionsOf(plans).issuers| ==>
              FirstIndex(names, OptionsOf(plans).issuers[i]) < FirstIndex(names, OptionsOf(plans).issuers[j])
  {
    DistinctFirstOccurrenceOrder(IssuerNames(plans));
  }

  // --------------------------------------------------------------- bounds

  function Premiums(plans: seq<Plan>): (r: seq<int>)
    ensures |r| == |plans| && forall i :: 0 <= i < |plans| ==> r[i] == plans[i].premium
  {
    seq(|plans|, i requires 0 <= i < |plans| => plans[i].premium)
  }

  /** `plans.map(plan => plan.deductibles[0].amount)`, defined when every plan has one. */
  function FirstDeductibles(plans: seq<Plan>): (r: seq<int>)
    requires AllHaveDeductible(plans)
    ensures |r| == |plans| && forall i :: 0 <= i < |plans| ==> r[i] == plans[i].deductibles[0]
  {
    seq(|plans|, i requires 0 <= i < |plans| => plans[i].deductibles[0])
  }

  /** `Math.min(...)`/`Math.max(...)` of premiums and first deductibles; ±Infinity for no plans. */
  function BoundsOf(plans: seq<Plan>): (b: Bounds)
    requires AllHaveDeductible(plans)
    ensures plans == [] ==> b == Bounds(PosInfinity, NegInfinity, PosInfinity, NegInfinity)
    ensures plans != [] ==> b.minPremium.Finite? && b.maxPremium.Finite? && b.minDeductible.Finite? && b.maxDeductible.Finite?
    ensures plans != [] ==> forall i :: 0 <= i < |plans| ==>
      b.minPremium.v <= plans[i].premium <= b.maxPremium.v
      && b.minDeductible.v <= plans[i].deductibles[0] <= b.maxDeductible.v
    ensures plans != [] ==> b.minPremium.v in Premiums(plans) && b.maxPremium.v in Premiums(plans)
    ensures plans != [] ==> b.minDeductible.v in FirstDeductibles(plans) && b.maxDeductible.v in FirstDeductibles(plans)
  {
    var premiums := Premiums(plans);
    var deductibles := FirstDeductibles(plans);
    assert forall i :: 0 <= i < |plans| ==> premiums[i] in premiums && deductibles[i] in deductibles;
    Bounds(MathMin(premiums), MathMax(premiums), MathMin(deductibles), MathMax(deductibles))
  }

  /** With the filter panel in its initial state for the plans' own bounds, every plan is shown. */
  lemma InitialFiltersShowEveryPlan(plans: seq<Plan>)
    requires AllHaveDeductible(plans)
    ensures FilterPlans(plans, InitialFilters(BoundsOf(plans))) == Some(plans)
  {
    var f := InitialFilters(BoundsOf(plans));
    forall i | 0 <= i < |plans| ensures Matches(f, plans[i]) {
      assert plans[i].premium in Premiums(plans);
    }
    FilterKeepsAllMatching(plans, f);
  }

  // --------------------------------------------------------------- sorting

  /** The values `InsuranceSortComponent` hands over; any other string sorts nothing. */
  datatype Criterion = PremiumAsc | PremiumDesc | DeductibleAsc | DeductibleDesc | RatingDesc | Unsorted

  function CriterionOf(s: string): Criterion {
    if s == "premium_asc" then PremiumAsc
    else if s == "premium_desc" then PremiumDesc
    else if s == "deductible_asc" then DeductibleAsc
    else if s == "deductible_desc" then DeductibleDesc
    else if s == "rating_desc" then RatingDesc
    else Unsorted
  }

  /** `a.deductibles[0]?.amount || 0`. */
  function DeductibleOrZero(p: Plan): int {
    if HasDeductible(p) then p.deductibles[0] else 0
  }

  /** `a.quality_rating?.global_rating || 0`. */
  function RatingOrZero(p: Plan): int {
    p.globalRating.GetOr(0)
  }

  /** The comparator passed to `sort`. */
  function Compare(c: Criterion, a: Plan, b: Plan): int {
    match c
    case PremiumAsc => a.premium - b.premium
    case PremiumDesc => b.premium - a.premium
    case DeductibleAsc => DeductibleOrZero(a) - DeductibleOrZero(b)
    case DeductibleDesc => DeductibleOrZero(b) - DeductibleOrZero(a)
    case RatingDesc => RatingOrZero(b) - RatingOrZero(a)
    case Unsorted => 0
  }

  /** The quantity a criterion sorts ascending by: the premium, deductible or rating, negated for a descending order. */
  function SortKey(c: Criterion, p: Plan): int {
    match c
    case PremiumAsc => p.premium
    case PremiumDesc => -p.premium
    case DeductibleAsc => DeductibleOrZero(p)
    case DeductibleDesc => -DeductibleOrZero(p)
    case RatingDesc => -RatingOrZero(p)
    case Unsorted => 0
  }

  /** Every comparator is the difference of two keys, so it orders plans consistently (a total preorder). */
  lemma CompareIsKeyDifference(c: Criterion, a: Plan, b: Plan)
    ensures Compare(c, a, b) == SortKey(c, a) - SortKey(c, b)
    ensures Compare(c, a, b) == -Compare(c, b, a)
  {
  }

  /** No plan compares after a later one. */
  predicate SortedBy(c: Criterion, s: seq<Plan>) {
    forall i, j :: 0 <= i < j < |s| ==> Compare(c, s[i], s[j]) <= 0
  }

  /** The first `n` elements are in ascending key order. */
  predicate KeysSorted(c: Criterion, s: seq<Plan>, n: int)
    requires 0 <= n <= |s|
  {
    forall k, l :: 0 <= k < l < n ==> SortKey(c, s[k]) <= SortKey(c, s[l])
  }

  /** Ascending keys is exactly what the comparator asks for. */
  lemma KeysSortedIsSorted(c: Criterion, s: seq<Plan>)
    requires KeysSorted(c, s, |s|)
    ensures SortedBy(c, s)
  {
    forall i, j | 0 <= i < j < |s| ensures Compare(c, s[i], s[j]) <= 0 {
      CompareIsKeyDifference(c, s[i], s[j]);
    }
  }

  /** Exchanging two entries leaves the same plans. */
  lemma SwapKeepsElements(s: seq<Plan>, p: int, q: int, t: seq<Plan>)
    requires 0 <= p < q < |s| && |t| == |s|
    requires t[p] == s[q] && t[q] == s[p]
    requires forall k :: 0 <= k < |s| && k != p && k != q ==> t[k] == s[k]
    ensures multiset(t) == multiset(s)
  {
    assert t == s[p := s[q]][q := s[p]];
  }

  /** Apart from the plan at `j`, the first `n + 1` plans are in ascending key order. */
  predicate SortedExcept(c: Criterion, s: seq<Plan>, n: int, j: int)
    requires 0 <= j <= n < |s|
  {
    forall k, l :: 0 <= k < l <= n && k != j && l != j ==> SortKey(c, s[k]) <= SortKey(c, s[l])
  }

  /** The plan at `j` has a smaller key than every plan after it up to `n`. */
  predicate BelowRest(c: Criterion, s: seq<Plan>, j: int, n: int)
    requires 0 <= j <= n < |s|
  {
    forall l :: j < l <= n ==> SortKey(c, s[j]) < SortKey(c, s[l])
  }

  /** Swapping the moving plan with a neighbour whose key is larger keeps both facts one place left. */
  lemma SwapStep(c: Criterion, s: seq<Plan>, t: seq<Plan>, j: int, n: int)
    requires 0 < j <= n < |s| && t == s[j - 1 := s[j]][j := s[j - 1]]
    requires SortedExcept(c, s, n, j) && BelowRest(c, s, j, n)
    requires SortKey(c, s[j]) < SortKey(c, s[j - 1])
    ensures SortedExcept(c, t, n, j - 1) && BelowRest(c, t, j - 1, n)
  {
    forall k, l | 0 <= k < l <= n && k != j - 1 && l != j - 1
      ensures SortKey(c, t[k]) <= SortKey(c, t[l])
    {
      if l == j {
        assert t[l] == s[j - 1] && t[k] == s[k];
        if k < j - 2 {
          assert SortKey(c, s[k]) <= SortKey(c, s[j - 2]);
        }
      } else if k == j {
        assert t[k] == s[j - 1] && t[l] == s[l];
        assert SortKey(c, s[j]) < SortKey(c, s[l]);
      } else {
        assert t[k] == s[k] && t[l] == s[l];
      }
    }
  }

  /** Once the moving plan's left neighbour is not larger, the first `n + 1` plans are in order. */
  lemma InsertDone(c: Criterion, s: seq<Plan>, j: int, n: int)
    requires 0 <= j <= n < |s|
    requires SortedExcept(c, s, n, j) && BelowRest(c, s, j, n)
    requires j == 0 || SortKey(c, s[j - 1]) <= SortKey(c, s[j])
    ensures KeysSorted(c, s, n + 1)
  {
    forall k, l | 0 <= k < l <= n ensures SortKey(c, s[k]) <= SortKey(c, s[l]) {
      if l == j && k < j - 1 {
        assert SortKey(c, s[k]) <= SortKey(c, s[j - 1]);
      }
    }
  }

  /** The swap in the inner loop: the moving plan trades places with its larger left neighbour. */
  method SwapLeft(a: array<Plan>, j: int, i: int, c: Criterion)
    requires 0 < j <= i < a.Length
    requires SortedExcept(c, a[..], i, j) && BelowRest(c, a[..], j, i)
    requires Compare(c, a[j - 1], a[j]) > 0
    modifies a
    ensures SortedExcept(c, a[..], i, j - 1) && BelowRest(c, a[..], j - 1, i)
    ensures multiset(a[..]) == multiset(old(a[..]))
    ensures forall k :: i < k < a.Length ==> a[k] == old(a[k])
    ensures c != Unsorted
  {
    CompareIsKeyDifference(c, a[j - 1], a[j]);
    ghost var before := a[..];
    a[j - 1], a[j] := a[j], a[j - 1];
    assert a[..] == before[j - 1 := before[j]][j := before[j - 1]];
    SwapStep(c, before, a[..], j, i);
    SwapKeepsElements(before, j - 1, j, a[..]);
  }

  /**
    One step of the insertion sort: the plan at `i` moves left, swapping with each neighbour
    the comparator puts after it, until the first `i + 1` plans are in order.
   */
  method InsertAt(a: array<Plan>, i: int, c: Criterion)
    requires 0 <= i < a.Length && KeysSorted(c, a[..], i)
    modifies a
    ensures KeysSorted(c, a[..], i + 1)
    ensures multiset(a[..]) == multiset(old(a[..]))
    ensures forall k :: i < k < a.Length ==> a[k] == old(a[k])
    ensures c == Unsorted ==> a[..] == old(a[..])
  {
    var j := i;
    while j > 0 && Compare(c, a[j - 1], a[j]) > 0
      invariant 0 <= j <= i
      invariant SortedExcept(c, a[..], i, j) && BelowRest(c, a[..], j, i)
      invariant multiset(a[..]) == multiset(old(a[..]))
      invariant forall k :: i < k < a.Length ==> a[k] == old(a[k])
      invariant j == i ==> a[..] == old(a[..])
      invariant c == Unsorted ==> j == i
    {
      SwapLeft(a, j, i, c);
      j := j - 1;
    }
    if j > 0 {
      CompareIsKeyDifference(c, a[j - 1], a[j]);
    }
    InsertDone(c, a[..], j, i);
  }

  /**
    `array.sort(comparator)` as an insertion sort: a plan moves left only past plans that
    compare strictly after it.
   */
  method SortPlans(a: array<Plan>, c: Criterion)
    modifies a
    ensures SortedBy(c, a[..])
    ensures multiset(a[..]) == multiset(old(a[..]))
    ensures c == Unsorted ==> a[..] == old(a[..])
  {
    var i := 0;
    while i < a.Length
      invariant 0 <= i <= a.Length
      invariant KeysSorted(c, a[..], i)
      invariant multiset(a[..]) == multiset(old(a[..]))
      invariant c == Unsorted ==> a[..] == old(a[..])
    {
      InsertAt(a, i, c);
      i := i + 1;
    }
    KeysSortedIsSorted(c, a[..]);
  }

  // ------------------------------------------------- the consultation request

  /** The body `fetchInsurancePlansFromConsultation` posts; `None` is a key left undefined. */
  datatype ConsultationRequest = ConsultationRequest(
    zipCode: Option<string>,
    income: Option<string>,
    householdSize: Option<string>,
    age: Option<string>,
    gender: Option<string>,
    tobacco: bool,
    coverageYear: Option<string>,
    market: Option<string>,
    aptcEligible: bool)

  function Answer(answers: map<string, string>, key: string): Option<string> {
    if key in answers then Some(answers[key]) else None
  }

  /** The request body: answers copied by key, the two flags true exactly for the answer 'Yes'. */
  function BuildConsultationRequest(answers: map<string, string>): (r: ConsultationRequest)
    ensures r.tobacco <==> "tobacco" in answers && answers["tobacco"] == "Yes"
    ensures r.aptcEligible <==> "aptcEligible" in answers && answers["aptcEligible"] == "Yes"
    ensures r.zipCode == Answer(answers, "zipCode") && r.income == Answer(answers, "income")
    ensures r.householdSize == Answer(answers, "householdSize")
    ensures r.age == Answer(answers, "age") && r.gender == Answer(answers, "gender")
    ensures r.coverageYear == Answer(answers, "coverageYear") && r.market == Answer(answers, "market")
  {
    ConsultationRequest(
      Answer(answers, "zipCode"), Answer(answers, "income"), Answer(answers, "householdSize"),
      Answer(answers, "age"), Answer(answers, "gender"),
      Answer(answers, "tobacco") == Some("Yes"),
      Answer(answers, "coverageYear"), Answer(answers, "market"),
      Answer(answers, "aptcEligible") == Some("Yes"))
  }

  /** What came back from `fetch` and `response.json()`. */
  datatype Reply =
    | Rejected(message: string)   // fetch or response.json() rejected with this message
    | Received(ok: bool, status: nat, body: string, plans: Option<seq<Plan>>)
      // `body` is `JSON.stringify(data)` (or the response text); `plans` is `data.plans` when it is an array

  const ErrorPrefix := "An error occurred while fetching insurance plans: "
  const BadFormatMessage := "Invalid response format: plans array is missing or not an array"
  /** The TypeError message of reading `.amount` of a missing first deductible (V8's wording). */
  const MissingDeductibleMessage := "Cannot read properties of undefined (reading 'amount')"

  function HttpErrorMessage(status: nat, body: string): string {
    "HTTP error! status: " + NatToString(status) + ", message: " + body
  }

  // ------------------------------------------------------------- the page

  /** The bounds effect runs for a non-empty list, and completes when every plan has a deductible. */
  predicate BoundsEffectRuns(plans: Option<seq<Plan>>) {
    plans.Some? && |plans.value| > 0 && AllHaveDeductible(plans.value)
  }

  class Page {
    var insurancePlans: Option<seq<Plan>>
    var filteredPlans: Option<seq<Plan>>
    var loading: bool
    var error: Option<string>
    /** `minPremium`, `maxPremium`, `minDeductible`, `maxDeductible`. */
    var bounds: Bounds
    var filterOptions: FilterOptions

    constructor ()
      ensures insurancePlans == None && filteredPlans == None && !loading && error == None
      ensures bounds == DefaultBounds && filterOptions == NoOptions
    {
      insurancePlans := None;
      filteredPlans := None;
      loading := false;
      error := None;
      bounds := DefaultBounds;
      filterOptions := NoOptions;
    }

    /** `updateFilterOptions(plans)`: options first, then the bounds, which throw on a plan without deductibles. */
    method UpdateFilterOptions(plans: seq<Plan>) returns (threw: bool)
      modifies this`filterOptions, this`bounds
      ensures filterOptions == OptionsOf(plans)
      ensures threw <==> !AllHaveDeductible(plans)
      ensures !threw ==> bounds == BoundsOf(plans)
      ensures threw ==> bounds == old(bounds)
    {
      filterOptions := OptionsOf(plans);
      if !AllHaveDeductible(plans) {
        return true;
      }
      bounds := BoundsOf(plans);
      return false;
    }

    /** `fetchInsurancePlansFromConsultation` once the reply is in: the checks, the catch and the finally. */
    method ReceiveConsultationReply(reply: Reply)
      modifies this
      ensures !loading
      ensures reply.Rejected? ==>
        error == Some(ErrorPrefix + reply.message) && insurancePlans == None && filteredPlans == None
        && bounds == old(bounds) && filterOptions == old(filterOptions)
      ensures reply.Received? && !reply.ok ==>
        error == Some(ErrorPrefix + HttpErrorMessage(reply.status, reply.body))
        && insurancePlans == None && filteredPlans == None
        && bounds == old(bounds) && filterOptions == old(filterOptions)
      ensures reply.Received? && reply.ok && reply.plans.None? ==>
        error == Some(ErrorPrefix + BadFormatMessage) && insurancePlans == None && filteredPlans == None
        && bounds == old(bounds) && filterOptions == old(filterOptions)
      ensures reply.Received? && reply.ok && reply.plans.Some? ==>
        filterOptions == OptionsOf(reply.plans.value)
        && if AllHaveDeductible(reply.plans.value) then
             error == None && insurancePlans == reply.plans && filteredPlans == reply.plans
             && bounds == BoundsOf(reply.plans.value)
           else
             error == Some(ErrorPrefix + MissingDeductibleMessage) && insurancePlans == None && filteredPlans == None
             && bounds == old(bounds)
    {
      loading := true;
      error := None;
      match reply {
      case Rejected(message) =>
        error := Some(ErrorPrefix + message);
        insurancePlans := None;
        filteredPlans := None;
      case Received(ok, status, body, plans) =>
        if !ok {
          error := Some(ErrorPrefix + HttpErrorMessage(status, body));
          insurancePlans := None;
          filteredPlans := None;
        } else if plans.None? {
          error := Some(ErrorPrefix + BadFormatMessage);
          insurancePlans := None;
          filteredPlans := None;
        } else {
          insurancePlans := plans;
          filteredPlans := plans;
          var threw := UpdateFilterOptions(plans.value);
          if threw {
            error := Some(ErrorPrefix + MissingDeductibleMessage);
            insurancePlans := None;
            filteredPlans := None;
          }
        }
      }
      loading := false;
    }

    /** `handleInsuranceSearch` once the reply is in: `data.plans` is stored without a check. */
    method ReceiveSearchReply(reply: Reply)
      modifies this`loading, this`error, this`insurancePlans, this`filteredPlans
      ensures !loading
      ensures reply.Rejected? ==> error == Some(ErrorPrefix + reply.message) && insurancePlans == None && filteredPlans == None
      ensures reply.Received? && !reply.ok ==>
        error == Some(ErrorPrefix + HttpErrorMessage(reply.status, reply.body))
        && insurancePlans == None && filteredPlans == None
      ensures reply.Received? && reply.ok ==>
        error == None && insurancePlans == reply.plans && filteredPlans == reply.plans
    {
      loading := true;
      error := None;
      match reply {
      case Rejected(message) =>
        error := Some(ErrorPrefix + message);
        insurancePlans := None;
        filteredPlans := None;
      case Received(ok, status, body, plans) =>
        if !ok {
          error := Some(ErrorPrefix + HttpErrorMessage(status, body));
          insurancePlans := None;
          filteredPlans := None;
        } else {
          insurancePlans := plans;
          filteredPlans := plans;
        }
      }
      loading := false;
    }

    /** The effect on `insurancePlans` that recomputes the options, for any list. */
    method OptionsEffect()
      modifies this`filterOptions
      ensures insurancePlans.Some? ==> filterOptions == OptionsOf(insurancePlans.value)
      ensures insurancePlans.None? ==> filterOptions == old(filterOptions)
    {
      var plans := insurancePlans;
      if plans.Some? {
        filterOptions := OptionsOf(plans.value);
      }
    }

    /**
      The effect on `insurancePlans` that recomputes the bounds, for a non-empty list. One whose
      computation would throw is not modelled: it changes nothing here.
     */
    method BoundsEffect()
      modifies this`bounds
      ensures BoundsEffectRuns(insurancePlans) ==> bounds == BoundsOf(insurancePlans.value)
      ensures !BoundsEffectRuns(insurancePlans) ==> bounds == old(bounds)
    {
      var plans := insurancePlans;
      if BoundsEffectRuns(plans) {
        bounds := BoundsOf(plans.value);
      }
    }

    /** `handleInsuranceFilterChange(filters)`: filters the full list, never the shown one. */
    method HandleFilterChange(f: Filters)
      modifies this`filteredPlans
      ensures insurancePlans.Some? && FilterPlans(insurancePlans.value, f).Some? ==>
        filteredPlans == FilterPlans(insurancePlans.value, f)
      ensures insurancePlans.None? || FilterPlans(insurancePlans.value, f).None? ==>
        filteredPlans == old(filteredPlans)
    {
      if insurancePlans.None? {
        return;
      }
      var filtered := FilterPlans(insurancePlans.value, f);
      if filtered.Some? {
        filteredPlans := filtered;
      }
    }

    /** `handleInsuranceSort(criteria)`: a sorted copy of the shown list replaces it. */
    method HandleSort(criteria: string)
      modifies this`filteredPlans
      ensures old(filteredPlans).None? ==> filteredPlans == None
      ensures old(filteredPlans).Some? ==>
        && filteredPlans.Some?
        && SortedBy(CriterionOf(criteria), filteredPlans.value)
        && multiset(filteredPlans.value) == multiset(old(filteredPlans).value)
        && (CriterionOf(criteria) == Unsorted ==> filteredPlans == old(filteredPlans))
    {
      if filteredPlans.None? {
        return;
      }
      var shown := filteredPlans.value;
      var copy := new Plan[|shown|](i requires 0 <= i < |shown| => shown[i]);
      assert copy[..] == shown;
      SortPlans(copy, CriterionOf(criteria));
      filteredPlans := Some(copy[..]);
    }
  }

  /** Filtering with the same filters before or after a sort gives plans with the same counts. */
  lemma FilterIgnoresOrder(plans: seq<Plan>, sorted: seq<Plan>, f: Filters)
    requires multiset(sorted) == multiset(plans)
    requires FilterPlans(plans, f).Some? && FilterPlans(sorted, f).Some?
    ensures multiset(FilterPlans(sorted, f).value) == multiset(FilterPlans(plans, f).value)
  {
    var a := FilterPlans(sorted, f).value;
    var b := FilterPlans(plans, f).value;
    forall p ensures multiset(a)[p] == multiset(b)[p] {
    }
  }
}
