/** The plan record returned by the marketplace search, as far as the front end reads it. */
module PlanRecord {
  import opened Wrappers

  datatype Plan = Plan(
    issuerName: string,          // plan.issuer.name
    planType: string,            // plan.type
    metalLevel: string,          // plan.metal_level
    premium: int,                // plan.premium
    deductibles: seq<int>,       // plan.deductibles[k].amount
    hsaEligible: bool,           // plan.hsa_eligible
    hasNationalNetwork: bool,    // plan.has_national_network
    globalRating: Option<int>)   // plan.quality_rating?.global_rating

  /** `plan.deductibles[0].amount`, which throws when the list is empty. */
  predicate HasDeductible(p: Plan) {
    |p.deductibles| > 0
  }

  predicate AllHaveDeductible(plans: seq<Plan>) {
    forall i :: 0 <= i < |plans| ==> HasDeductible(plans[i])
  }
}
