/**
  The plan-search form (src/components/InsuranceSearchForm.js): income, ZIP code, state,
  county and the list of people to be covered; `validateForm` collects error messages in a
  fixed order and submit goes ahead only when there are none.
 */
module InsuranceSearchForm {
  import opened Wrappers
  import opened JsBuiltins

  // ------------------------------------------------------------------ data

  /** A person's field holds the text of an input or the `checked` state of a checkbox. */
  datatype Field = Text(text: string) | Flag(on: bool)

  /** One entry of `formData.people`, keyed by field name. */
  type Person = map<string, Field>

  const PersonFields: seq<string> := ["age", "gender", "eligibleForCoverage", "legalGuardian", "pregnant", "tobaccoUser"]

  /** The entry the form starts with and `addPerson` appends: empty texts, every flag off. */
  const DefaultPerson: Person := map[
    "age" := Text(""), "gender" := Text(""),
    "eligibleForCoverage" := Flag(false), "legalGuardian" := Flag(false),
    "pregnant" := Flag(false), "tobaccoUser" := Flag(false)]

  /** `formData`; `county` is `null` after the county picker is cleared. */
  datatype SearchForm = SearchForm(
    income: string,
    zipCode: string,
    county: Option<string>,
    state: string,
    people: seq<Person>,
    market: string,
    year: int)

  /** The initial `formData`; the current year is a parameter. */
  function InitialForm(currentYear: int): (f: SearchForm)
    ensures |f.people| == 1 && f.people[0] == DefaultPerson
    ensures f.income == "" && f.zipCode == "" && f.state == "" && f.county == Some("")
    ensures f.market == "Individual" && f.year == currentYear
  {
    SearchForm("", "", Some(""), "", [DefaultPerson], "Individual", currentYear)
  }

  /** JavaScript truthiness of a field that may be missing. */
  predicate Truthy(o: Option<Field>) {
    match o
    case None => false
    case Some(Text(s)) => s != ""
    case Some(Flag(b)) => b
  }

  function Get(p: Person, key: string): Option<Field> {
    if key in p then Some(p[key]) else None
  }

  // --------------------------------------------------------- formatIncome

  /** `Infinity.toLocaleString()`. */
  const InfinityText := "\U{221E}"

  /**
    `formatIncome`: the digits of the input as a plain decimal integer (leading zeros
    dropped), '' when the input has no digit, and "∞" when `parseInt` overflows.
   */
  function FormatIncome(value: string): (r: string)
    ensures KeepDigits(value) == [] <==> r == []
    ensures DigitsValue(KeepDigits(value)) >= DoubleOverflow <==> r == InfinityText
    ensures r != [] && r != InfinityText ==> Canonical(r) && DigitsValue(r) == DigitsValue(KeepDigits(value))
  {
    var numeric := KeepDigits(value);
    if numeric == [] then [] else
      match ParseInt(numeric)
      case Finite(n) =>
        ParseIntOfDigits(numeric);
        NatToStringRoundTrip(DigitsValue(numeric));
        NatToString(DigitsValue(numeric))
      case _ =>
        ParseIntOfDigits(numeric);
        InfinityText
  }

  /** Reformatting an income below the double range changes nothing. */
  lemma FormatIncomeIdempotent(value: string)
    requires DigitsValue(KeepDigits(value)) < DoubleOverflow
    ensures FormatIncome(FormatIncome(value)) == FormatIncome(value)
  {
    var r := FormatIncome(value);
    KeepDigitsIdentity(r);
    if r != [] {
      CanonicalRoundTrip(r);
    }
  }

  /**
    An income past the double range is shown as "∞", and reformatting that gives '': the
    digits typed are lost, and an income that `validateForm` rejects becomes one it accepts.
   */
  lemma FormatIncomeOverflow(value: string)
    requires DigitsValue(KeepDigits(value)) >= DoubleOverflow
    ensures FormatIncome(value) == InfinityText && FormatIncome(FormatIncome(value)) == []
    ensures !IncomeAccepted(value) && IncomeAccepted(FormatIncome(value))
  {
    assert KeepDigits(InfinityText) == [];
  }

  // ---------------------------------------------------------- validateForm

  /** `parseInt(person.age)`: a text is parsed, a flag or a missing age gives NaN. */
  function AgeOf(p: Person): (n: Number)
    ensures !n.NaN? ==> exists s :: Get(p, "age") == Some(Text(s)) && DigitPrefix(Unsigned(TrimStart(s))) != []
  {
    match Get(p, "age")
    case Some(Text(s)) => ParseInt(s)
    case _ => NaN
  }

  /**
    One entry of the list `validateForm` returns; `Message` gives its exact text. The
    per-person entries carry the person's number (index + 1).
   */
  datatype FormError =
    | NegativeIncome
    | IncomeTooLarge
    | InvalidZip
    | MissingState
    | MissingCounty
    | InvalidAge(person: nat)
    | MissingGender(person: nat)
    | MalePregnant(person: nat)
    | PregnancyAge(person: nat)
  {
    predicate AboutPerson() {
      InvalidAge? || MissingGender? || MalePregnant? || PregnancyAge?
    }
  }

  function Message(e: FormError): string {
    match e
    case NegativeIncome => "Income cannot be negative"
    case IncomeTooLarge => "Please enter a valid income amount"
    case InvalidZip => "Please enter a valid 5-digit ZIP code"
    case MissingState => "Please select a state"
    case MissingCounty => "Please select a county"
    case InvalidAge(n) => "Person " + NatToString(n) + ": Please enter a valid age between 0 and 120"
    case MissingGender(n) => "Person " + NatToString(n) + ": Please select a gender"
    case MalePregnant(n) => "Person " + NatToString(n) + ": Males cannot be marked as pregnant"
    case PregnancyAge(n) => "Person " + NatToString(n) + ": Please verify pregnancy status for the given age"
  }

  /** What the checks read from a person: `parseInt(person.age)`, `person.gender` and whether `person.pregnant` is truthy. */
  datatype Reading = Reading(age: Number, gender: Option<Field>, pregnant: bool)

  function Read(p: Person): Reading {
    Reading(AgeOf(p), Get(p, "gender"), Truthy(Get(p, "pregnant")))
  }

  function AgeError(r: Reading, n: nat): seq<FormError> {
    if r.age.NaN? || Less(r.age, Finite(0)) || Less(Finite(120), r.age) then [InvalidAge(n)] else []
  }

  function GenderError(r: Reading, n: nat): seq<FormError> {
    if !Truthy(r.gender) then [MissingGender(n)] else []
  }

  function MaleError(r: Reading, n: nat): seq<FormError> {
    if r.pregnant && r.gender == Some(Text("Male")) then [MalePregnant(n)] else []
  }

  function PregnancyAgeError(r: Reading, n: nat): seq<FormError> {
    if r.pregnant && (Less(r.age, Finite(12)) || Less(Finite(60), r.age)) then [PregnancyAge(n)] else []
  }

  /** The messages the `forEach` pushes for person number `n` (index + 1), in order. */
  function PersonErrors(p: Person, n: nat): (r: seq<FormError>)
    ensures |r| <= 4
    ensures forall k :: 0 <= k < |r| ==> r[k].AboutPerson() && r[k].person == n
  {
    var reading := Read(p);
    AgeError(reading, n) + GenderError(reading, n) + MaleError(reading, n) + PregnancyAgeError(reading, n)
  }

  /** What a person must satisfy: an age 0..120, a gender, and a pregnancy only for a non-male aged 12..60. */
  predicate ReadingValid(r: Reading) {
    && r.age.Finite? && 0 <= r.age.v <= 120
    && Truthy(r.gender)
    && (r.pregnant ==> r.gender != Some(Text("Male")) && 12 <= r.age.v <= 60)
  }

  predicate PersonValid(p: Person) {
    ReadingValid(Read(p))
  }

  lemma ReadingErrorsEmpty(r: Reading, n: nat)
    ensures AgeError(r, n) + GenderError(r, n) + MaleError(r, n) + PregnancyAgeError(r, n) == [] <==> ReadingValid(r)
  {
  }

  lemma PersonErrorsEmpty(p: Person, n: nat)
    ensures PersonErrors(p, n) == [] <==> PersonValid(p)
  {
    ReadingErrorsEmpty(Read(p), n);
  }

  /** The messages of every person, person 1 first. */
  function PeopleErrors(people: seq<Person>): seq<FormError> {
    if people == [] then []
    else PeopleErrors(people[..|people| - 1]) + PersonErrors(people[|people| - 1], |people|)
  }

  /** The people up to index `i` give the messages of the people before it, then person `i + 1`'s. */
  lemma PeopleErrorsSnoc(people: seq<Person>, i: nat)
    requires i < |people|
    ensures PeopleErrors(people[..i + 1]) == PeopleErrors(people[..i]) + PersonErrors(people[i], i + 1)
  {
    assert people[..i + 1][..i] == people[..i];
  }

  /** A property holds of every element exactly when it holds of all but the last, and of the last. */
  lemma AllSplitLast<T>(s: seq<T>, init: seq<T>, p: T -> bool)
    requires s != [] && init == s[..|s| - 1]
    ensures (forall i :: 0 <= i < |s| ==> p(s[i]))
        <==> (forall i :: 0 <= i < |init| ==> p(init[i])) && p(s[|s| - 1])
  {
    assert forall i :: 0 <= i < |init| ==> init[i] == s[i];
  }

  lemma {:induction false} PeopleErrorsEmpty(people: seq<Person>)
    ensures PeopleErrors(people) == [] <==> forall i :: 0 <= i < |people| ==> PersonValid(people[i])
  {
    if people != [] {
      var n := |people| - 1;
      assert PeopleErrors(people) == PeopleErrors(people[..n]) + PersonErrors(people[n], n + 1);
      PeopleErrorsEmpty(people[..n]);
      PersonErrorsEmpty(people[n], n + 1);
      AllSplitLast(people, people[..n], PersonValid);
    }
  }

  /** The income as `validateForm` reads it: NaN when it has no digit, else the value of its digits. */
  function IncomeValue(income: string): Number {
    var digits := KeepDigits(income);
    if digits == [] then NaN else NumberOfInt(DigitsValue(digits))
  }

  /** That is `parseInt(formData.income.replace(/[^0-9]/g, ''))`. */
  lemma IncomeValueIsParseInt(income: string)
    ensures IncomeValue(income) == ParseInt(KeepDigits(income))
  {
    ParseIntOfDigits(KeepDigits(income));
  }

  predicate CountyGiven(county: Option<string>) {
    county.Some? && county.value != ""
  }

  /** The messages about income, ZIP, state and county, in that order. */
  function HeaderErrors(income: string, zipCode: string, state: string, county: Option<string>): seq<FormError> {
    var value := IncomeValue(income);
    (if Less(value, Finite(0)) then [NegativeIncome] else [])
    + (if Less(Finite(999999999), value) then [IncomeTooLarge] else [])
    + (if !IsZip(zipCode) then [InvalidZip] else [])
    + (if state == "" then [MissingState] else [])
    + (if !CountyGiven(county) then [MissingCounty] else [])
  }

  /** The list `validateForm` returns. */
  function FormErrors(form: SearchForm): seq<FormError> {
    HeaderErrors(form.income, form.zipCode, form.state, form.county) + PeopleErrors(form.people)
  }

  /** Digits are stripped before parsing, so the income is never negative: that message never appears. */
  lemma IncomeNeverNegative(income: string)
    ensures ParseInt(KeepDigits(income)) == NaN || LessEq(Finite(0), ParseInt(KeepDigits(income)))
    ensures !Less(IncomeValue(income), Finite(0))
  {
    IncomeValueIsParseInt(income);
    IncomeValueCases(income);
  }

  /** The income read is NaN without digits, +Infinity past the double range, else the digits' value. */
  lemma IncomeValueCases(income: string)
    ensures KeepDigits(income) == [] ==> IncomeValue(income) == NaN
    ensures KeepDigits(income) != [] && DigitsValue(KeepDigits(income)) >= DoubleOverflow ==> IncomeValue(income) == PosInfinity
    ensures KeepDigits(income) != [] && DigitsValue(KeepDigits(income)) < DoubleOverflow ==> IncomeValue(income) == Finite(DigitsValue(KeepDigits(income)))
  {
  }

  /** The only income error is for more than 999999999; an income without digits passes. */
  predicate IncomeAccepted(income: string) {
    KeepDigits(income) == [] || DigitsValue(KeepDigits(income)) <= 999999999
  }

  lemma IncomeCheck(income: string)
    ensures Less(Finite(999999999), ParseInt(KeepDigits(income))) <==> !IncomeAccepted(income)
  {
    IncomeValueIsParseInt(income);
    IncomeValueCases(income);
  }

  /** The form-level checks are silent exactly when the income, ZIP code, state and county are acceptable. */
  lemma HeaderErrorsEmpty(income: string, zipCode: string, state: string, county: Option<string>)
    ensures HeaderErrors(income, zipCode, state, county) == []
        <==> IncomeAccepted(income) && IsZip(zipCode) && state != "" && CountyGiven(county)
  {
    IncomeNeverNegative(income);
    IncomeCheck(income);
  }

  /** Every check of the form, stated directly. */
  predicate FormValid(form: SearchForm) {
    && IncomeAccepted(form.income)
    && IsZip(form.zipCode)
    && form.state != ""
    && CountyGiven(form.county)
    && forall i :: 0 <= i < |form.people| ==> PersonValid(form.people[i])
  }

  /** `validateForm` returns an empty list exactly when every check passes. */
  lemma NoErrorsIffValid(form: SearchForm)
    ensures FormErrors(form) == [] <==> FormValid(form)
  {
    HeaderErrorsEmpty(form.income, form.zipCode, form.state, form.county);
    PeopleErrorsEmpty(form.people);
  }

  /** Errors come in order: the form-level ones first, then those of person 1, 2, ... */
  lemma ErrorsOfAddedPerson(form: SearchForm, p: Person)
    ensures FormErrors(form.(people := form.people + [p]))
         == FormErrors(form) + PersonErrors(p, |form.people| + 1)
  {
    assert (form.people + [p])[..|form.people|] == form.people;
  }

  /** The `forEach` callback of `validateForm`: the messages it pushes about person number `personNum`. */
  method CheckPerson(person: Person, personNum: nat) returns (pushed: seq<FormError>)
    ensures pushed == PersonErrors(person, personNum)
  {
    pushed := [];
    var reading := Read(person);
    var age := reading.age;
    if age.NaN? || Less(age, Finite(0)) || Less(Finite(120), age) {
      pushed := pushed + [InvalidAge(personNum)];
    }
    assert pushed == AgeError(reading, personNum);
    if !Truthy(reading.gender) {
      pushed := pushed + [MissingGender(personNum)];
    }
    assert pushed == AgeError(reading, personNum) + GenderError(reading, personNum);
    if reading.pregnant && reading.gender == Some(Text("Male")) {
      pushed := pushed + [MalePregnant(personNum)];
    }
    assert pushed == AgeError(reading, personNum) + GenderError(reading, personNum) + MaleError(reading, personNum);
    if reading.pregnant && (Less(age, Finite(12)) || Less(Finite(60), age)) {
      pushed := pushed + [PregnancyAge(personNum)];
    }
  }

  /** The form-level checks at the head of `validateForm`: income, ZIP code, state, county. */
  method CheckHeader(form: SearchForm) returns (errors: seq<FormError>)
    ensures errors == HeaderErrors(form.income, form.zipCode, form.state, form.county)
  {
    errors := [];
    var income := IncomeValue(form.income);
    if Less(income, Finite(0)) {
      errors := errors + [NegativeIncome];
    }
    if Less(Finite(999999999), income) {
      errors := errors + [IncomeTooLarge];
    }
    if !IsZip(form.zipCode) {
      errors := errors + [InvalidZip];
    }
    if form.state == "" {
      errors := errors + [MissingState];
    }
    if !CountyGiven(form.county) {
      errors := errors + [MissingCounty];
    }
  }

  /** The `forEach` of `validateForm`: each person's messages, in index order. */
  method CheckPeople(people: seq<Person>) returns (errors: seq<FormError>)
    ensures errors == PeopleErrors(people)
  {
    errors := [];
    var index := 0;
    while index < |people|
      invariant 0 <= index <= |people|
      invariant errors == PeopleErrors(people[..index])
    {
      var pushed := CheckPerson(people[index], index + 1);
      errors := errors + pushed;
      PeopleErrorsSnoc(people, index);
      index := index + 1;
    }
    assert people[..index] == people;
  }

  /** `validateForm`: the form-level checks, then the checks of every person. */
  method ValidateForm(form: SearchForm) returns (errors: seq<FormError>)
    ensures errors == FormErrors(form)
  {
    var header := CheckHeader(form);
    var people := CheckPeople(form.people);
    errors := header + people;
  }

  // --------------------------------------------------------------- editing

  /** The `change` event of an input: its name, text, checked state and whether it is a checkbox. */
  datatype ChangeEvent = ChangeEvent(name: string, value: string, checked: bool, isCheckbox: bool)

  /** The name test of `handleChange`'s third branch. */
  predicate NamesPersonField(name: string) {
    Contains(name, "age") || Contains(name, "gender") || Contains(name, "eligibleForCoverage")
    || Contains(name, "legalGuardian") || Contains(name, "pregnant") || Contains(name, "tobaccoUser")
  }

  /** What a person field receives from the event. */
  function EventField(e: ChangeEvent): Field {
    if e.isCheckbox then Flag(e.checked) else Text(e.value)
  }

  /** `handleChange(e, index)`; a person field is only ever changed for a rendered person. */
  function HandleChange(form: SearchForm, e: ChangeEvent, index: int): (r: SearchForm)
    requires e.name != "income" && e.name != "zipCode" && e.name != "county" && NamesPersonField(e.name)
             ==> 0 <= index < |form.people|
    ensures e.name == "income" ==> r == form.(income := FormatIncome(e.value))
    ensures e.name == "zipCode" ==> r == form.(zipCode := e.value)
    ensures e.name == "county" ==> r == form.(county := Some(e.value))
    ensures e.name != "income" && e.name != "zipCode" && e.name != "county" && NamesPersonField(e.name) ==>
      && r == form.(people := r.people)
      && |r.people| == |form.people|
      && r.people[index] == form.people[index][LastSegment(e.name) := EventField(e)]
      && forall j :: 0 <= j < |r.people| && j != index ==> r.people[j] == form.people[j]
    ensures e.name != "income" && e.name != "zipCode" && e.name != "county" && !NamesPersonField(e.name) ==> r == form
  {
    if e.name == "income" then form.(income := FormatIncome(e.value))
    else if e.name == "zipCode" then form.(zipCode := e.value)
    else if e.name == "county" then form.(county := Some(e.value))
    else if NamesPersonField(e.name) then
      var field := LastSegment(e.name);
      form.(people := form.people[index := form.people[index][field := EventField(e)]])
    else form
  }

  /** The input name the form renders for a person's field. */
  function PersonInputName(index: nat, field: string): string {
    "person." + NatToString(index) + "." + field
  }

  /** Editing a rendered person input changes exactly that person's field of that name. */
  lemma PersonInputUpdatesField(form: SearchForm, index: nat, field: string, e: ChangeEvent)
    requires field in PersonFields && index < |form.people|
    requires e.name == PersonInputName(index, field)
    ensures HandleChange(form, e, index)
         == form.(people := form.people[index := form.people[index][field := EventField(e)]])
  {
    var prefix := "person." + NatToString(index);
    assert e.name == prefix + "." + field;
    assert e.name != "income" && e.name != "zipCode" && e.name != "county" by {
      assert e.name[0] == 'p';
    }
    assert NamesPersonField(e.name) by {
      var at := |prefix| + 1;
      assert e.name[at..at + |field|] == field;
      assert OccursAt(e.name, field, at);
    }
    assert LastSegment(e.name) == field by {
      assert forall i :: 0 <= i < |field| ==> field[i] != '.';
      LastSegmentOfPath(prefix, field);
    }
  }

  /** `handleStateChange`: the chosen state's abbreviation (or '' when cleared); the county is always reset. */
  function HandleStateChange(form: SearchForm, abbreviation: Option<string>): (r: SearchForm)
    ensures r.county == Some("") && r.state == abbreviation.GetOr("")
    ensures r == form.(state := r.state, county := r.county)
  {
    form.(state := abbreviation.GetOr(""), county := Some(""))
  }

  /** `handleCountyChange`. */
  function HandleCountyChange(form: SearchForm, county: Option<string>): (r: SearchForm)
    ensures r.county == county && r == form.(county := county)
  {
    form.(county := county)
  }

  /** `addPerson`: one default person appended. */
  function AddPerson(form: SearchForm): (r: SearchForm)
    ensures r == form.(people := r.people)
    ensures |r.people| == |form.people| + 1 && r.people[..|form.people|] == form.people
    ensures r.people[|form.people|] == DefaultPerson
  {
    form.(people := form.people + [DefaultPerson])
  }

  /** `people.filter((_, i) => i !== index)`. */
  function WithoutIndex(people: seq<Person>, index: int): (r: seq<Person>)
    ensures |r| == if 0 <= index < |people| then |people| - 1 else |people|
    ensures forall j :: 0 <= j < |r| ==> r[j] == people[if 0 <= index <= j then j + 1 else j]
  {
    if people == [] then []
    else if index == 0 then people[1..]
    else [people[0]] + WithoutIndex(people[1..], index - 1)
  }

  /** `removePerson(index)`: only the people list changes. */
  function RemovePerson(form: SearchForm, index: int): (r: SearchForm)
    ensures r == form.(people := WithoutIndex(form.people, index))
  {
    form.(people := WithoutIndex(form.people, index))
  }

  /** Removing the person just added restores the form. */
  lemma RemoveAddedPerson(form: SearchForm)
    ensures RemovePerson(AddPerson(form), |form.people|) == form
  {
    var r := WithoutIndex(form.people + [DefaultPerson], |form.people|);
    assert r == form.people;
  }

  /** Removing keeps the others in order: removing index i from a list that holds p there gives the list without p. */
  lemma RemoveInserted(people: seq<Person>, p: Person, i: nat)
    requires i <= |people|
    ensures WithoutIndex(people[..i] + [p] + people[i..], i) == people
  {
    var s := people[..i] + [p] + people[i..];
    assert WithoutIndex(s, i) == people;
  }

  // ---------------------------------------------------------------- submit

  datatype SubmitOutcome =
    | Rejected(errors: seq<FormError>)   // the error list is shown, `onSubmit` is not called
    | Submitted(data: SearchForm)     // `onSubmit(submissionData)`

  /** The decision part of `handleSubmit`. */
  method HandleSubmit(form: SearchForm) returns (outcome: SubmitOutcome)
    ensures outcome.Submitted? <==> FormValid(form)
    ensures outcome.Rejected? ==> outcome.errors == FormErrors(form) && outcome.errors != []
    ensures outcome.Submitted? ==> outcome.data == form.(income := KeepDigits(form.income))
  {
    NoErrorsIffValid(form);
    var validationErrors := ValidateForm(form);
    if |validationErrors| > 0 {
      return Rejected(validationErrors);
    }
    outcome := Submitted(form.(income := KeepDigits(form.income)));
  }
}
