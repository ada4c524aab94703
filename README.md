# Hypo Insurance Search, modelled in Dafny

Hypo Insurance Search is a React front end with a few Node handlers. It helps a household
find a health-insurance plan on the federal marketplace. This project models its logic and
proves properties of that model:

- **The consultation questionnaire.** Ten household questions, eight about the applicant,
  then seven for each further household member. Next checks the current answer, then
  reports an error, moves one step on, or shows the final page.
- **The plan-search form.** Income formatting; the ordered list of validation errors; the
  per-person field updates; adding and removing people; the submit decision.
- **The results page.** Filtering the plans, sorting them with a comparator, and deriving
  the filter options and the slider bounds from the plans.
- **The filter panel.** The category toggles, the sliders and flags, and the reset of the
  ranges when the bounds change.
- **The plan-search endpoint and the local server.** The county lookup, the county FIPS
  code, the marketplace request body, the county-name list and the shape of the error
  responses.
- **The Stripe webhook.** Verify the signature, dispatch on the event type, and store one
  record for a completed checkout.

The model is organised as follows:

- The network, Stripe, MongoDB and JSON parsing are not modelled. Their results are
  parameters of the model.
- The endpoints return the trace of upstream calls they make, so "no call was made" is a
  statement about that trace.
- The webhook's database is a `Store` object with a record list and a count of open clients.
- JavaScript numbers are integers plus NaN and the two infinities, with JavaScript's
  comparison rules (`JsBuiltins`). A digit run from 2^1024 - 2^970 on converts to an
  infinity, as it does for a double.

| file | module | models |
|---|---|---|
| wrappers.dfy | `Wrappers` | `Option` |
| js_builtins.dfy | `JsBuiltins` | `parseInt`, `Number(...)`, `trim`, `replace(/[^0-9]/g, '')`, `split('.').pop()`, `[...new Set()]`, `Math.min`/`Math.max` |
| plan_record.dfy | `PlanRecord` | the plan fields the front end reads |
| consultation_questions.dfy | `ConsultationQuestions` | src/components/ConsultationQuestions.js |
| insurance_search_form.dfy | `InsuranceSearchForm` | src/components/InsuranceSearchForm.js |
| insurance_filter_component.dfy | `InsuranceFilterComponent` | src/components/InsuranceFilterComponent.js |
| app.dfy | `App` | src/App.js |
| plan_search_handler.dfy | `PlanSearchHandler` | api/insurance-plans.js |
| server.dfy | `Server` | server.js |
| webhook_stripe.dfy | `WebhookStripe` | api/webhook-stripe.js |

Three consequences of the code that the model makes explicit:

- The question index is `step % section.length`. So the applicant section starts at its
  third question and every member block starts at its fifth (see Findings).
- The results page has a path that would post the questionnaire answers to the
  plan-search endpoint (src/App.js:51-108), but nothing reaches it. It is handed to the
  questionnaire as `onComplete` (src/App.js:289), and the questionnaire never calls
  `onComplete`: its final button runs `handleComplete`, which goes to the Stripe checkout
  (src/components/ConsultationQuestions.js:326, 541). The model keeps that path as written.
  Were it called, the body would have no state, county or `people`. The county lookup would
  then be unfiltered, and `people.map` would throw before the marketplace is called, so the
  search would always end in a 500 (`PlanSearchHandler.ConsultationSearchFails`).
- An income worth about 1.8e308 or more (2^1024 - 2^970 and up) is shown as "∞". Submit then strips it to '', which
  `validateForm` accepts, so an income that would fail the check is submitted as empty
  (`InsuranceSearchForm.FormatIncomeOverflow`).

## Model

| member | source | states |
|---|---|---|
| JsBuiltins.KeepDigits | src/components/InsuranceSearchForm.js:79 | `replace(/[^0-9]/g, '')` leaves only decimal digits and never lengthens the text |
| JsBuiltins.KeepDigitsIdentity | src/components/ConsultationQuestions.js:366-369 | stripping changes a string exactly when it holds a non-digit, so typed digits are kept as they are |
| JsBuiltins.KeepDigitsCounts | src/components/ConsultationQuestions.js:367 | every digit survives as often as it occurs; nothing else survives |
| JsBuiltins.KeepDigitsAppend | src/components/ConsultationQuestions.js:367 | stripping distributes over concatenation |
| JsBuiltins.NatToString | src/components/InsuranceSearchForm.js:80 | `String(n)` is canonical decimal text: no leading zero except for 0, one digit exactly below 10 |
| JsBuiltins.NatToStringRoundTrip | src/components/InsuranceSearchForm.js:80 | the digits of `String(n)` read back as n |
| JsBuiltins.CanonicalRoundTrip | src/components/InsuranceSearchForm.js:80 | rendering the value of canonical digit text gives back that text |
| JsBuiltins.LeadingNonZeroIsPositive | src/components/InsuranceSearchForm.js:80 | digit text starting with a non-zero digit has a positive value |
| JsBuiltins.LeadingZeroValue | src/components/InsuranceSearchForm.js:80 | a leading zero does not change the value of digit text |
| JsBuiltins.TrimStart | src/components/ConsultationQuestions.js:44 | the result is the suffix that starts at the first non-space; everything cut is white space |
| JsBuiltins.TrimEnd | src/components/ConsultationQuestions.js:44 | the result is the prefix that ends at the last non-space; everything cut is white space |
| JsBuiltins.TrimEmptyIffAllSpace | src/components/ConsultationQuestions.js:44 | `value.trim() !== ''` holds exactly when some character is not white space |
| JsBuiltins.DigitPrefix | src/components/InsuranceSearchForm.js:173 | the longest prefix of decimal digits, the part `parseInt` reads |
| JsBuiltins.NumberOfInt | src/components/InsuranceSearchForm.js:80 | an integer's Number value is an infinity from 2^1024 - 2^970 on (half-way above the largest double), else the integer; never NaN |
| JsBuiltins.ParseInt | src/components/InsuranceSearchForm.js:173 | `parseInt` is NaN exactly when no digit follows the white space and sign; a finite result lies inside the double range |
| JsBuiltins.ParseIntOfDigits | src/components/InsuranceSearchForm.js:147 | on digit text `parseInt` reads the digits' value, an infinity past the double range; on '' it gives NaN |
| JsBuiltins.DigitPrefixOfDigits | src/components/InsuranceSearchForm.js:147 | digit text is its own longest digit prefix |
| JsBuiltins.ToNumber | src/components/ConsultationQuestions.js:81 | the implicit `Number(...)` of a comparison maps blank text to 0 (integer text only; see "## Left out") |
| JsBuiltins.ToNumberOfDigits | src/components/ConsultationQuestions.js:81 | a run of digits converts to its value, an infinity past the double range |
| JsBuiltins.LastSegment | src/components/InsuranceSearchForm.js:204 | `split('.').pop()` is the dot-free suffix after the last dot, or the whole name when it has none |
| JsBuiltins.LastSegmentOfPath | src/components/InsuranceSearchForm.js:204 | the field of the input name `prefix.field` is `field` |
| JsBuiltins.Distinct | src/App.js:111-113 | `[...new Set(xs)]` holds exactly the elements of xs, without duplicates |
| JsBuiltins.FirstIndex | src/App.js:111 | the first position of an element that occurs |
| JsBuiltins.FirstIndexUnique | src/App.js:111 | a position holding x with no earlier x is the first index |
| JsBuiltins.DistinctFirstOccurrenceOrder | src/App.js:111-113 | the distinct values come out in the order of their first occurrences |
| JsBuiltins.Minimum | src/App.js:119 | the least element, attained in the list |
| JsBuiltins.Maximum | src/App.js:120 | the greatest element, attained in the list |
| JsBuiltins.MathMin | src/App.js:119-121 | `Math.min(...xs)` is +Infinity for no elements, else the attained minimum |
| JsBuiltins.MathMax | src/App.js:120-122 | `Math.max(...xs)` is -Infinity for no elements, else the attained maximum |
| ConsultationQuestions.Pad | src/components/ConsultationQuestions.js:29-31 | assigning index n of a copied array fills the gap with holes and keeps the old entries |
| ConsultationQuestions.SetAnswer | src/components/ConsultationQuestions.js:24-37 | a top-level update sets exactly key id; a member update creates the record and changes only `householdMembers[m][id]` |
| ConsultationQuestions.EmailAcceptsPattern | src/components/ConsultationQuestions.js:62 | every `local@domain.tld` of non-space, non-@ parts passes the e-mail check |
| ConsultationQuestions.EmailParts | src/components/ConsultationQuestions.js:62 | every accepted address splits into those three parts and has exactly one @ |
| ConsultationQuestions.HouseholdRangeBounds | src/components/ConsultationQuestions.js:90 | on integer text, the household-size check accepts exactly the sizes 1 to 19 |
| ConsultationQuestions.AgeRangeBounds | src/components/ConsultationQuestions.js:138 | on integer text, the age check accepts exactly the ages 0 to 119 (also line 206) |
| ConsultationQuestions.QuestionCounts | src/components/ConsultationQuestions.js:263-275 | the section lengths the step arithmetic uses: 10 main, 8 personal, 7 member questions |
| ConsultationQuestions.Between | src/components/ConsultationQuestions.js:90 | JavaScript comparisons against two integers hold only for a finite number strictly between them |
| ConsultationQuestions.ZipRuleIsFiveDigits | src/components/ConsultationQuestions.js:71 | the ZIP check accepts exactly five decimal digits |
| ConsultationQuestions.Section | src/components/ConsultationQuestions.js:263-265 | the section the step falls in is never empty |
| ConsultationQuestions.QuestionAt | src/components/ConsultationQuestions.js:263-266 | main question `step` below 10, personal question `step % 8` below 18, member question `step % 7` after; always in range |
| ConsultationQuestions.MemberIndex | src/components/ConsultationQuestions.js:273-275 | -1 exactly for the first 18 steps; otherwise member m, whose block is steps 18+7m to 18+7m+6 |
| ConsultationQuestions.AnswerThenRead | src/components/ConsultationQuestions.js:24-37 | answering the shown question makes it the current answer Next reads (lines 277-279) |
| ConsultationQuestions.TotalForValidSize | src/components/ConsultationQuestions.js:309-311 | with a valid integer household size n there are 18 + 7(n-1) steps, between 18 and 144 |
| ConsultationQuestions.SectionIdsDistinct | src/components/ConsultationQuestions.js:133-259 | no two questions of the personal or member section share an id |
| ConsultationQuestions.PersonalSectionAsksEachOnce | src/components/ConsultationQuestions.js:263-266 | steps 10 to 17 ask every personal question exactly once |
| ConsultationQuestions.MemberStep | src/components/ConsultationQuestions.js:266-275 | step 18+7m+j has index (j+4) mod 7, shows that member question and belongs to member m |
| ConsultationQuestions.MemberStepsDiffer | src/components/ConsultationQuestions.js:263-266 | two member steps fewer than seven apart show different questions |
| ConsultationQuestions.MemberBlockAsksEachOnce | src/components/ConsultationQuestions.js:263-275 | the seven steps of member m ask every member question exactly once, all for member m |
| ConsultationQuestions.SectionsStartMidway | src/components/ConsultationQuestions.js:266 | as written, step 10 shows `eligibleForCoverage` and step 18 shows `tobacco`, not the first questions |
| ConsultationQuestions.QuestionInOrder | src/components/ConsultationQuestions.js:263-266 | the index counted from the section's first step always picks a question of that section |
| ConsultationQuestions.InOrderApplicantSteps | src/components/ConsultationQuestions.js:263-266 | with that index, steps 0-9 and 10-17 ask their sections in order |
| ConsultationQuestions.InOrderMemberBlock | src/components/ConsultationQuestions.js:263-275 | with that index, every member block asks the member questions in order |
| ConsultationQuestions.Consultation.constructor | src/components/ConsultationQuestions.js:19-22 | step 0, no answers, no error, final page hidden |
| ConsultationQuestions.Consultation.HandleAnswer | src/components/ConsultationQuestions.js:24-37 | the answers become `SetAnswer` of the old answers |
| ConsultationQuestions.Consultation.HandleCurrencyChange | src/components/ConsultationQuestions.js:366-369 | the stored answer is the typed text with every non-digit removed |
| ConsultationQuestions.Consultation.HandleNext | src/components/ConsultationQuestions.js:262-318 | a missing, invalid or list-less 'Yes' answer sets its message and changes nothing else; otherwise the error clears and the step advances by one or the final page shows |
| ConsultationQuestions.Consultation.HandleBack | src/components/ConsultationQuestions.js:320-324 | one step back only from a positive step, so the step never goes negative |
| InsuranceSearchForm.InitialForm | src/components/InsuranceSearchForm.js:84-99 | one default person, empty income, ZIP, state and county, market 'Individual', the current year |
| InsuranceSearchForm.FormatIncome | src/components/InsuranceSearchForm.js:78-81 | '' exactly when the input has no digit; "∞" exactly when the digits' value is past the double range; else canonical decimal text of that value |
| InsuranceSearchForm.FormatIncomeIdempotent | src/components/InsuranceSearchForm.js:78-81 | formatting a formatted income below the double range changes nothing |
| InsuranceSearchForm.FormatIncomeOverflow | src/components/InsuranceSearchForm.js:78-81 | past the double range the income shows as "∞", reformats to '', and turns from rejected to accepted (lines 147-155) |
| InsuranceSearchForm.AgeOf | src/components/InsuranceSearchForm.js:173 | `parseInt(person.age)` is a number only when the age is text with a digit after white space and sign |
| InsuranceSearchForm.PersonErrors | src/components/InsuranceSearchForm.js:171-189 | at most four entries per person, all about that person's number |
| InsuranceSearchForm.ReadingErrorsEmpty | src/components/InsuranceSearchForm.js:175-188 | the four person checks are silent exactly when age is 0-120, a gender is given, and a pregnancy is non-male and aged 12-60 |
| InsuranceSearchForm.PersonErrorsEmpty | src/components/InsuranceSearchForm.js:171-189 | a person has no errors exactly when that person is valid |
| InsuranceSearchForm.PeopleErrorsEmpty | src/components/InsuranceSearchForm.js:171-189 | the people produce no errors exactly when every person is valid |
| InsuranceSearchForm.PeopleErrorsSnoc | src/components/InsuranceSearchForm.js:171-189 | the messages of one more person come after those of the people before |
| InsuranceSearchForm.IncomeValueIsParseInt | src/components/InsuranceSearchForm.js:147 | the income read is `parseInt` of the stripped digits |
| InsuranceSearchForm.IncomeNeverNegative | src/components/InsuranceSearchForm.js:147-152 | the stripped income is NaN or at least 0, so 'Income cannot be negative' never appears |
| InsuranceSearchForm.IncomeValueCases | src/components/InsuranceSearchForm.js:147 | the income read is NaN without digits, +Infinity past the double range, else the digits' value |
| InsuranceSearchForm.IncomeCheck | src/components/InsuranceSearchForm.js:153-155 | the income error appears exactly when the digits' value exceeds 999999999 |
| InsuranceSearchForm.HeaderErrorsEmpty | src/components/InsuranceSearchForm.js:146-168 | the form-level checks are silent exactly when the income is at most 999999999 or has no digit, the ZIP has five digits, and a state and county are chosen |
| InsuranceSearchForm.NoErrorsIffValid | src/components/InsuranceSearchForm.js:145-192 | `validateForm` returns an empty list exactly when every check passes |
| InsuranceSearchForm.ErrorsOfAddedPerson | src/components/InsuranceSearchForm.js:171-189 | errors come form-level first, then person 1, 2, ...; a new last person's errors come last |
| InsuranceSearchForm.CheckPerson | src/components/InsuranceSearchForm.js:171-189 | the `forEach` callback pushes exactly that person's errors, in check order |
| InsuranceSearchForm.CheckHeader | src/components/InsuranceSearchForm.js:146-168 | income, ZIP, state and county errors in that order |
| InsuranceSearchForm.CheckPeople | src/components/InsuranceSearchForm.js:171-189 | the `forEach` loop collects each person's errors in index order |
| InsuranceSearchForm.ValidateForm | src/components/InsuranceSearchForm.js:145-192 | the header errors followed by each person's errors in index order |
| InsuranceSearchForm.HandleChange | src/components/InsuranceSearchForm.js:194-212 | income is reformatted; ZIP and county are copied; a person field changes only `people[index][last segment]`; any other name changes nothing |
| InsuranceSearchForm.PersonInputUpdatesField | src/components/InsuranceSearchForm.js:201-210 | editing the rendered input `person.i.field` changes exactly that person's field |
| InsuranceSearchForm.HandleStateChange | src/components/InsuranceSearchForm.js:214-216 | the state becomes the abbreviation or ''; the county is always reset to '' |
| InsuranceSearchForm.HandleCountyChange | src/components/InsuranceSearchForm.js:218-220 | only the county changes |
| InsuranceSearchForm.AddPerson | src/components/InsuranceSearchForm.js:252-264 | one default person appended, the others unchanged |
| InsuranceSearchForm.WithoutIndex | src/components/InsuranceSearchForm.js:267 | exactly the entry at index is dropped, the others keep their order |
| InsuranceSearchForm.RemovePerson | src/components/InsuranceSearchForm.js:266-269 | only the people list changes |
| InsuranceSearchForm.RemoveAddedPerson | src/components/InsuranceSearchForm.js:252-269 | removing the person just added restores the form |
| InsuranceSearchForm.RemoveInserted | src/components/InsuranceSearchForm.js:266-269 | removing index i from a list with p inserted at i gives the list back |
| InsuranceSearchForm.HandleSubmit | src/components/InsuranceSearchForm.js:222-250 | submits exactly when the form is valid, with the income stripped to digits; otherwise reports the non-empty error list |
| InsuranceFilterComponent.InitialFilters | src/components/InsuranceFilterComponent.js:33-41 | empty selections, both flags off, ranges equal to the bounds |
| InsuranceFilterComponent.WithSelected | src/components/InsuranceFilterComponent.js:53-58 | the computed key gets the new list; every other field is kept |
| InsuranceFilterComponent.RemoveAll | src/components/InsuranceFilterComponent.js:56 | every occurrence of the value is removed and nothing else |
| InsuranceFilterComponent.RemoveAbsent | src/components/InsuranceFilterComponent.js:56 | removing an absent value keeps the list |
| InsuranceFilterComponent.RemoveAllNoDuplicates | src/components/InsuranceFilterComponent.js:56 | removal keeps a duplicate-free list duplicate-free |
| InsuranceFilterComponent.RemoveAllAppend | src/components/InsuranceFilterComponent.js:56 | removal distributes over concatenation |
| InsuranceFilterComponent.Toggle | src/components/InsuranceFilterComponent.js:55-57 | the value's membership flips; other values' membership is kept; a selected value is filtered out, an absent one appended at the end |
| InsuranceFilterComponent.ToggleTwiceRestores | src/components/InsuranceFilterComponent.js:55-57 | toggling an absent value twice restores the list |
| InsuranceFilterComponent.ToggleKeepsNoDuplicates | src/components/InsuranceFilterComponent.js:55-57 | a toggle keeps a selection list free of duplicates |
| InsuranceFilterComponent.HandleCheckboxChange | src/components/InsuranceFilterComponent.js:52-59 | that category's list becomes its toggle, so membership flips; other categories, ranges and flags are unchanged |
| InsuranceFilterComponent.HandleSliderChange | src/components/InsuranceFilterComponent.js:61-66 | only the named range changes |
| InsuranceFilterComponent.HandleBoundTyped | src/components/InsuranceFilterComponent.js:155 | a typed bound replaces that end with its `parseInt` and keeps the other end (also lines 165, 187, 197) |
| InsuranceFilterComponent.HandleBooleanChange | src/components/InsuranceFilterComponent.js:68-73 | only the named flag changes |
| InsuranceFilterComponent.ResetBounds | src/components/InsuranceFilterComponent.js:43-49 | both ranges become [min, max]; selections and flags are kept |
| InsuranceFilterComponent.ResetForgetsSliders | src/components/InsuranceFilterComponent.js:43-66 | a reset erases any earlier slider change |
| InsuranceFilterComponent.ResetInitial | src/components/InsuranceFilterComponent.js:33-49 | resetting initial filters to new bounds gives the initial filters of those bounds |
| App.FilterPlans | src/App.js:174-187 | throws exactly when some plan reaches the deductible read without one; otherwise an order-preserving subsequence holding every copy of each matching plan and nothing else |
| App.FilterMembership | src/App.js:175-185 | a plan is shown exactly when it is in the full list and matches every condition |
| App.FilterKeepsAllMatching | src/App.js:175-185 | when every plan matches, the list comes back unchanged |
| App.NaNBoundMatchesNothing | src/App.js:180-181 | a NaN bound from an unparsable typed value hides every plan |
| App.IssuerNames | src/App.js:111 | the issuer names, one per plan, in order |
| App.PlanTypes | src/App.js:112 | the plan types, one per plan, in order |
| App.MetalLevels | src/App.js:113 | the metal levels, one per plan, in order |
| App.OptionsOf | src/App.js:110-114 | each option list is duplicate-free, holds every plan's value and nothing else |
| App.IssuersInFirstOccurrenceOrder | src/App.js:111 | issuers are listed in the order they first appear |
| App.Premiums | src/App.js:116 | the premiums, one per plan, in order |
| App.FirstDeductibles | src/App.js:117 | the first deductible amounts, one per plan, in order |
| App.BoundsOf | src/App.js:116-122 | ±Infinity for no plans; otherwise attained minima and maxima of premium and first deductible |
| App.InitialFiltersShowEveryPlan | src/App.js:116-122 | initial filters over the plans' own bounds show every plan |
| App.CompareIsKeyDifference | src/App.js:192-206 | every comparator is a difference of keys, with a missing deductible or rating counted as 0, so it is antisymmetric |
| App.KeysSortedIsSorted | src/App.js:192-206 | ascending keys is what the comparator asks for |
| App.SwapKeepsElements | src/App.js:192 | exchanging two entries keeps the same plans |
| App.SwapStep | src/App.js:192 | one insertion-sort swap keeps the sorted-except-one invariant |
| App.InsertDone | src/App.js:192 | when the moving plan's left neighbour is not larger, the prefix is sorted |
| App.SwapLeft | src/App.js:192 | the swap step in place on the array |
| App.InsertAt | src/App.js:192 | one insertion step sorts one more element in place, a permutation, leaving later entries alone |
| App.SortPlans | src/App.js:192-207 | the array ends sorted by the comparator and is a permutation; comparator 0 leaves it unchanged |
| App.BuildConsultationRequest | src/App.js:62-72 | (never called, see above) `tobacco` and `aptcEligible` are true exactly for the answer 'Yes'; ZIP, income, household size, age, gender, coverage year and market are copied |
| App.Page.constructor | src/App.js:28-41 | no plans, no error, default bounds 0/2000/0/10000, empty options |
| App.Page.UpdateFilterOptions | src/App.js:110-123 | options are set first; the bounds follow unless a plan lacks a deductible, which throws |
| App.Page.ReceiveConsultationReply | src/App.js:58-108 | (never called, see above) HTTP errors, missing plans and a throwing option update set the prefixed error and null both lists; otherwise both lists hold the plans |
| App.Page.ReceiveSearchReply | src/App.js:146-172 | an error nulls both lists with the prefixed message; an OK reply stores `data.plans` unchecked |
| App.Page.OptionsEffect | src/App.js:125-132 | the options are recomputed for any list |
| App.Page.BoundsEffect | src/App.js:134-144 | the bounds are recomputed only for a non-empty list |
| App.Page.HandleFilterChange | src/App.js:174-187 | the shown list is filtered from the full list, never the shown one |
| App.Page.HandleSort | src/App.js:189-209 | a sorted permutation of the shown list replaces it; an unknown criterion keeps the order |
| App.FilterIgnoresOrder | src/App.js:174-209 | filtering a sorted list keeps the same plans as filtering the original |
| PlanSearchHandler.ParseOptional | api/insurance-plans.js:50 | `parseInt` of an absent value is NaN, and a finite result lies inside the double range (also line 64) |
| PlanSearchHandler.Fips | api/insurance-plans.js:38-39 | the FIPS code is FIPSCode followed by countyCode |
| PlanSearchHandler.FipsOfStandardCodes | api/insurance-plans.js:39 | a 2-digit state code and a 3-digit county code give a 5-digit FIPS code |
| PlanSearchHandler.MarketPersonOf | api/insurance-plans.js:51-56 | age parsed; `eligibleForCoverage` becomes `aptc_eligible`; gender copied; `tobaccoUser` becomes `uses_tobacco` |
| PlanSearchHandler.MapPeople | api/insurance-plans.js:51-56 | one entry per person, in order |
| PlanSearchHandler.ValidAgeIsSent | api/insurance-plans.js:52 | a person the form accepts reaches the marketplace with an age of 0 to 120 |
| PlanSearchHandler.BuildRequest | api/insurance-plans.js:48-65 | income and year parsed, market copied, place = FIPS, state, ZIP |
| PlanSearchHandler.TrySearch | api/insurance-plans.js:12-82 | the county lookup always comes first; the marketplace is called exactly when the county is found and people are given; success exactly when plans are an array |
| PlanSearchHandler.ErrorResponse | api/insurance-plans.js:83-98 | always 500; `statusCode` and `apiResponse` are present exactly when the error had a response; the key is reported only as set or not set |
| PlanSearchHandler.HandleRequest | api/insurance-plans.js:4-100 | a non-POST gets 405 with `Allow: POST` and makes no call; a POST without a body throws at the destructuring and gets the 500 record with no call; a POST with a body starts with the county lookup; every POST answers 200 or 500 |
| PlanSearchHandler.SuccessIff | api/insurance-plans.js:34-82 | 200 exactly when the county is found, people are given and plans come back; the plans are passed on unchanged |
| PlanSearchHandler.CountyNotFound | api/insurance-plans.js:34-36 | a missing or empty county result is a 500 with that message and no marketplace call |
| PlanSearchHandler.RequestShape | api/insurance-plans.js:38-65 | the marketplace request carries the joined FIPS code and the people mapped one-to-one |
| PlanSearchHandler.ErrorCarriesUpstreamStatus | api/insurance-plans.js:93-96 | the error record carries a status exactly when an upstream call failed with a response |
| PlanSearchHandler.ConsultationBody | src/App.js:62-72 | the questionnaire's request has no state, county, people or year |
| PlanSearchHandler.ConsultationSearchFails | api/insurance-plans.js:18-56 | a search built from the questionnaire answers always ends in 500 after only an unfiltered county lookup |
| Server.CountiesQuery | server.js:71-74 | the counties lookup filters on the state alone, with limit 1000 |
| Server.CountyNames | server.js:88 | the county names, one per result, in order |
| Server.CountyNamesAppend | server.js:88 | listing two batches of rows is listing each in turn |
| Server.CountiesRoute | server.js:65-96 | 200 with the names exactly when results are present; otherwise 500 'Failed to fetch counties' with the reason |
| Server.NoRowsNoCounties | server.js:84-91 | an empty result is an empty list, not an error |
| Server.PlanRoute | server.js:98-187 | the route starts with the limit-1 county lookup and answers 200 or 500 |
| Server.PlanRouteAgrees | server.js:98-187 | the server route and the serverless endpoint give the same response and calls for a POST with a JSON object body |
| Server.NoBodyRoutesDiffer | server.js:17 | without a JSON body the server reads `{}` and makes the unfiltered lookup, while the serverless endpoint answers 500 with no call (api/insurance-plans.js:13) |
| WebhookStripe.DocumentOf | api/webhook-stripe.js:49-55 | the record holds session id, customer e-mail, parsed answers, payment status and time; building it fails without `customer_details` |
| WebhookStripe.Store.constructor | api/webhook-stripe.js:32-38 | an empty collection with no open client |
| WebhookStripe.Store.Connect | api/webhook-stripe.js:41 | a successful connect opens one client |
| WebhookStripe.Store.InsertOne | api/webhook-stripe.js:49-55 | a successful insert appends exactly the document |
| WebhookStripe.Store.Close | api/webhook-stripe.js:59 | a successful close closes one client |
| WebhookStripe.HandleWebhook | api/webhook-stripe.js:9-67 | bad signature: 400 and no store access; other event: 200 and no write; bad answers: uncaught and no write; completed: exactly one record when connect, document and insert succeed, and 200 only if the close also succeeds, else 500 |

## Left out

- Network and SDK calls (axios, fetch, Back4App, the marketplace API, Stripe, MongoDB) are not modelled. Their results are parameters.
- JSON parsing and stringifying are not modelled. `JSON.stringify(data)` in the HTTP error message is a string parameter. `JSON.parse` of the answers is an input that may fail.
- Logging (`console.log`/`console.error`) is left out. So is the marketplace key in the request URL: the model records only whether the key is set.
- React hook scheduling, rendering, the Snackbar and the keypress listener are left out. Only the state transitions are modelled.
- Components and pages that only present data are left out: `InsuranceSortComponent`, the popup, the consultation box, and the Success and Cancel pages.
- The counties fetch inside the search form is left out, along with its timeout and its mapping of 504 and 500 to messages (src/components/InsuranceSearchForm.js:104-143).
- api/counties/[state].js is not part of this model. It repeats the counties route of server.js, plus a 405 for methods other than GET.
- api/create-checkout-session.js, utils/dynamodb.js and the hospital routes of server.js (lines 20-63) are not part of this model. Each is one SDK call or a pass-through proxy.
- `handleComplete` (src/components/ConsultationQuestions.js:326-359) is left out. It starts the Stripe checkout.
- InsuranceSearchForm.FormatIncome: the grouping separators that `toLocaleString` inserts are not modelled. Submit strips every non-digit again, so the submitted income is the same. Above 2^53 JavaScript shows the income rounded to a double; the model shows the exact digits.
- InsuranceSearchForm.FormatIncomeIdempotent: holds only below the double range. Past it the income shows as "∞", which reformats to '' (`FormatIncomeOverflow`).
- JsBuiltins.ParseInt: `parseInt` and `Number(...)` are modelled on decimal integers only. Fractions, exponents and hexadecimal text are not modelled, and neither is the sign of zero.
- JsBuiltins.NumberOfInt: rounding to 53 significant bits is not modelled. A finite value above 2^53 keeps every digit, where JavaScript rounds it to the nearest double. Only the overflow to an infinity is modelled. Rounding is monotone and every bound the code compares with (0, 20, 120, 999999999) is far below 2^53, so no check gives a different answer.
- JsBuiltins.ToNumber: the same exact-integer reading as `ParseInt`, with the same overflow to an infinity. Text with a fraction or an exponent ("0.5", "19.5", "1e1") reads as NaN in the model, where JavaScript reads its value.
- ConsultationQuestions.HouseholdRangeBounds: the household-size input is `type="number"`, so it can hold "0.5" or "19.5". The source accepts those (`value > 0 && value < 20`); the model rejects them with the household-size message.
- ConsultationQuestions.AgeRangeBounds: likewise, a fractional or exponent age such as "30.5" or "1e1" is accepted by the source and rejected by the model.
- ConsultationQuestions.Consultation.HandleNext: because of the integer reading, it does not show what a fractional household size does in the source. With "0.5", `totalQuestions` is 18 + (0.5 - 1) * 7 = 14.5, so the questionnaire ends after step 14 and never asks steps 15-17, which include the applicant's age.
- ConsultationQuestions.TotalForValidSize: stated for integer household sizes only, for the same reason.
- `handleConsultationComplete` and `fetchInsurancePlansFromConsultation` (src/App.js:51-108) never run in the source, because the questionnaire never calls `onComplete`. The model keeps them as written (`App.BuildConsultationRequest`, `App.Page.ReceiveConsultationReply`, `PlanSearchHandler.ConsultationSearchFails`).
- InsuranceSearchForm.AgeOf: an age above 2^53 is not rounded (see JsBuiltins.NumberOfInt). It fails the age check either way.
- PlanRecord.Plan: premiums and deductible amounts are integers. The marketplace sends decimal numbers, but they are only compared and subtracted, and integers keep that order.
- InsuranceSearchForm.FormErrors: the errors are codes, and `Message` gives their exact texts. `validateForm` returns the texts themselves.
- App.SortPlans: the ordering is modelled on an insertion sort, which is stable. `Array.prototype.sort` is stable in current engines too, but this model proves only sortedness, permutation and the unchanged order for comparator 0, not stability in general.
- App.Page.BoundsEffect: the crash the bounds effect would cause for plans without a deductible is not modelled; the model leaves the bounds unchanged instead. The same holds for sorting or filtering before any search: the filter panel is shown only when plans are loaded (src/App.js:233).
- App.Page.HandleSort: a sort before any search would throw on `[...null]`. The model leaves the state unchanged instead.
- App.Page.HandleFilterChange: a filter callback that throws is an uncaught error in the source. The model leaves the shown list unchanged instead.
- WebhookStripe.HandleWebhook: an insert that fails is assumed to store nothing. The time `new Date()` reads is a parameter.

## Findings

| source | as written | input that shows it | evidently intended | confidence | as-written member | corrected member |
|---|---|---|---|---|---|---|
| src/components/ConsultationQuestions.js:266 | `currentQuestions[step % currentQuestions.length]` indexes the personal and member sections by the absolute step | step 10 (first personal step) shows `eligibleForCoverage`, not `age`; step 18 (first member step) shows `tobacco`, not `age` | index by the position inside the section (step − 10, step − 18), so each section starts with its first question | not executed | ConsultationQuestions.SectionsStartMidway | ConsultationQuestions.InOrderApplicantSteps |
