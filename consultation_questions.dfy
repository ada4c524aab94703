/**
  The consultation questionnaire (src/components/ConsultationQuestions.js): ten household
  questions, eight questions about the applicant, then seven questions for every further
  household member. The component keeps `step`, `answers`, `error` and `showFinalPage`;
  Next checks the current answer and either reports an error, moves one step on, or
  shows the final page.
 */
module ConsultationQuestions {
  import opened Wrappers
  import opened JsBuiltins

  // ------------------------------------------------------------------ answers

  /** The answers of one person, keyed by question id (every input delivers a string). */
  type Record = map<string, string>

  /**
    `answers`: the top-level keys, plus `householdMembers`, a sparse array in which a hole
    (`undefined`) is `None`. An absent `householdMembers` reads like an empty one.
   */
  datatype Answers = Answers(fields: Record, householdMembers: seq<Option<Record>>)

  const NoAnswers := Answers(map[], [])

  function Lookup(r: Record, key: string): Option<string> {
    if key in r then Some(r[key]) else None
  }

  /** JavaScript truthiness of a string answer that may be `undefined`. */
  predicate Truthy(o: Option<string>) {
    o.Some? && o.value != ""
  }

  /** `[...xs]` lengthened to `n` entries, the new entries holes, as assigning index `n - 1` does. */
  function Pad(xs: seq<Option<Record>>, n: nat): (r: seq<Option<Record>>)
    ensures |r| == if |xs| >= n then |xs| else n
    ensures r[..|xs|] == xs
    ensures forall i :: |xs| <= i < |r| ==> r[i] == None
  {
    if |xs| >= n then xs else xs + seq(n - |xs|, _ => None)
  }

  /**
    The updater inside `handleAnswer(id, value, memberIndex)`: a top-level answer when
    `memberIndex` is -1, otherwise key `id` of household member `memberIndex`, whose record
    is created empty when missing.
   */
  function SetAnswer(a: Answers, id: string, value: string, memberIndex: int): (r: Answers)
    requires memberIndex >= -1
    ensures memberIndex == -1 ==>
      && r.householdMembers == a.householdMembers
      && r.fields.Keys == a.fields.Keys + {id}
      && r.fields[id] == value
      && forall k :: k in a.fields && k != id ==> r.fields[k] == a.fields[k]
    ensures memberIndex >= 0 ==>
      && r.fields == a.fields
      && |r.householdMembers| == (if |a.householdMembers| > memberIndex then |a.householdMembers| else memberIndex + 1)
      && r.householdMembers[memberIndex].Some?
      && Lookup(r.householdMembers[memberIndex].value, id) == Some(value)
      && (forall k :: k != id ==>
            Lookup(r.householdMembers[memberIndex].value, k) == MemberLookup(a, memberIndex, k))
      && (forall j :: 0 <= j < |r.householdMembers| && j != memberIndex ==>
            r.householdMembers[j] == if j < |a.householdMembers| then a.householdMembers[j] else None)
  {
    if memberIndex == -1 then
      a.(fields := a.fields[id := value])
    else
      var members := Pad(a.householdMembers, memberIndex + 1);
      var base := members[memberIndex].GetOr(map[]);
      a.(householdMembers := members[memberIndex := Some(base[id := value])])
  }

  /** `answers.householdMembers[m][key]`, `undefined` when the member record is missing. */
  function MemberLookup(a: Answers, m: nat, key: string): Option<string> {
    if m < |a.householdMembers| && a.householdMembers[m].Some? then Lookup(a.householdMembers[m].value, key)
    else None
  }

  /** The answer to `key` for the applicant (member index -1) or for household member `m`. */
  function AnswerFor(a: Answers, memberIndex: int, key: string): Option<string> {
    if memberIndex < 0 then Lookup(a.fields, key) else MemberLookup(a, memberIndex, key)
  }

  // ------------------------------------------------------------- validation

  /** Which `validation` lambda a question carries. */
  datatype Rule =
    | NoRule          // no validation
    | NonBlank        // value.trim() !== ''
    | EmailShape      // /^[^\s@]+@[^\s@]+\.[^\s@]+$/
    | FiveDigits      // /^\d{5}$/
    | Positive        // value > 0
    | HouseholdRange  // value > 0 && value < 20
    | NonNegative     // value >= 0
    | AgeRange        // value >= 0 && value < 120

  datatype Question = Question(id: string, rule: Rule, errorMessage: string)

  /** A character `[^\s@]` accepts. */
  predicate PlainChar(c: char) {
    !IsSpace(c) && c != '@'
  }

  predicate Plain(s: string) {
    forall k :: 0 <= k < |s| ==> PlainChar(s[k])
  }

  /** `s` matches the e-mail pattern with its `@` at `i` and the chosen `.` at `j`. */
  predicate EmailSplit(s: string, i: nat, j: nat)
    requires i < j < |s|
  {
    s[i] == '@' && s[j] == '.' && Plain(s[..i]) && Plain(s[i + 1..j]) && Plain(s[j + 1..])
  }

  /** `/^[^\s@]+@[^\s@]+\.[^\s@]+$/.test(s)`, written out on positions. */
  predicate IsEmail(s: string) {
    exists i, j | 0 < i && i + 1 < j && j + 1 < |s| :: EmailSplit(s, i, j)
  }

  /** Every string of the pattern's language passes the check ... */
  lemma EmailAcceptsPattern(a: string, b: string, c: string)
    requires Plain(a) && Plain(b) && Plain(c) && |a| > 0 && |b| > 0 && |c| > 0
    ensures IsEmail(a + "@" + b + "." + c)
  {
    var s := a + "@" + b + "." + c;
    var i, j := |a|, |a| + 1 + |b|;
    assert s[..i] == a && s[i + 1..j] == b && s[j + 1..] == c;
    assert EmailSplit(s, i, j);
  }

  /** ... and every string that passes it is of that form, with exactly one `@`. */
  lemma EmailParts(s: string) returns (a: string, b: string, c: string)
    requires IsEmail(s)
    ensures s == a + "@" + b + "." + c
    ensures Plain(a) && Plain(b) && Plain(c) && |a| > 0 && |b| > 0 && |c| > 0
    ensures forall k :: 0 <= k < |s| && s[k] == '@' ==> k == |a|
  {
    var i, j :| 0 < i && i + 1 < j && j + 1 < |s| && EmailSplit(s, i, j);
    a, b, c := s[..i], s[i + 1..j], s[j + 1..];
    assert s == a + "@" + b + "." + c;
  }

  /** `validation(value)` for the question's rule; a question without a rule accepts anything. */
  predicate Passes(rule: Rule, value: string) {
    match rule
    case NoRule => true
    case NonBlank => Trim(value) != []
    case EmailShape => IsEmail(value)
    case FiveDigits => IsZip(value)
    case Positive => Less(Finite(0), ToNumber(value))
    case HouseholdRange => Less(Finite(0), ToNumber(value)) && Less(ToNumber(value), Finite(20))
    case NonNegative => LessEq(Finite(0), ToNumber(value))
    case AgeRange => LessEq(Finite(0), ToNumber(value)) && Less(ToNumber(value), Finite(120))
  }

  /** The household-size rule accepts exactly the sizes 1 to 19. */
  lemma HouseholdRangeBounds(value: string)
    ensures Passes(HouseholdRange, value) <==> ToNumber(value).Finite? && 1 <= ToNumber(value).v <= 19
  {
    Between(ToNumber(value), 0, 20);
  }

  /** The age rule accepts exactly the ages 0 to 119. */
  lemma AgeRangeBounds(value: string)
    ensures Passes(AgeRange, value) <==> ToNumber(value).Finite? && 0 <= ToNumber(value).v <= 119
  {
    Between(ToNumber(value), -1, 120);
  }

  /** JavaScript comparisons with two integer bounds hold only for a finite number strictly between them. */
  lemma Between(n: Number, lo: int, hi: int)
    ensures (Less(Finite(lo), n) && Less(n, Finite(hi))) <==> n.Finite? && lo < n.v < hi
    ensures (LessEq(Finite(lo + 1), n) && Less(n, Finite(hi))) <==> n.Finite? && lo < n.v < hi
  {
  }

  /** A ZIP answer passes exactly when it is five decimal digits. */
  lemma ZipRuleIsFiveDigits(value: string)
    ensures Passes(FiveDigits, value) <==> |value| == 5 && forall k :: 0 <= k < 5 ==> '0' <= value[k] <= '9'
  {
  }

  // -------------------------------------------------------------- questions

  const MainQuestions: seq<Question> := [
    Question("firstName", NonBlank, "Please enter your first name"),
    Question("lastName", NonBlank, "Please enter your last name"),
    Question("email", EmailShape, "Please enter a valid email address"),
    Question("zipCode", FiveDigits, "Please enter a valid 5-digit ZIP code"),
    Question("income", Positive, "Please enter a valid income amount"),
    Question("householdSize", HouseholdRange, "Please enter a valid household size (1-19)"),
    Question("monthlyBudget", NonNegative, "Please enter a valid amount"),
    Question("emergencyFund", NonNegative, "Please enter a valid amount"),
    Question("coverageYear", NoRule, ""),
    Question("market", NoRule, "")
  ]

  const PersonalQuestions: seq<Question> := [
    Question("age", AgeRange, "Please enter a valid age (0-119)"),
    Question("sex", NoRule, ""),
    Question("eligibleForCoverage", NoRule, ""),
    Question("legalGuardian", NoRule, ""),
    Question("pregnant", NoRule, ""),
    Question("tobacco", NoRule, ""),
    Question("specialNeeds", NoRule, ""),
    Question("prescriptionDrugs", NoRule, "")
  ]

  const MemberQuestions: seq<Question> := [
    Question("age", AgeRange, "Please enter a valid age (0-119)"),
    Question("sex", NoRule, ""),
    Question("eligibleForCoverage", NoRule, ""),
    Question("pregnant", NoRule, ""),
    Question("tobacco", NoRule, ""),
    Question("specialNeeds", NoRule, ""),
    Question("prescriptionDrugs", NoRule, "")
  ]

  /**
    Steps before the first household-member question, `mainQuestions.length + personalQuestions.length`,
    and `memberQuestions.length`: both written as literals so that step arithmetic stays linear
    (`QuestionCounts` ties them to the tables).
   */
  const ApplicantSteps := 18
  const MemberSteps := 7

  /** The section sizes the step arithmetic relies on. */
  lemma QuestionCounts()
    ensures |MainQuestions| == 10 && |PersonalQuestions| == 8
    ensures ApplicantSteps == |MainQuestions| + |PersonalQuestions|
    ensures |MemberQuestions| == MemberSteps
  {
  }

  /** `currentQuestions`: the section the step falls in. */
  function Section(step: nat): (qs: seq<Question>)
    ensures |qs| > 0
  {
    if step < |MainQuestions| then MainQuestions
    else if step < ApplicantSteps then PersonalQuestions
    else MemberQuestions
  }

  /**
    `currentQuestions[step % currentQuestions.length]`, the question as the code picks it.
    The index is always in range, so the `!currentQuestion` branch of Next never runs.
   */
  function QuestionAt(step: nat): (q: Question)
    ensures step < 10 ==> q == MainQuestions[step]
    ensures 10 <= step < 18 ==> q == PersonalQuestions[step % 8]
    ensures 18 <= step ==> q == MemberQuestions[step % 7]
  {
    QuestionCounts();
    var qs := Section(step);
    assert |qs| == if step < 10 then 10 else if step < 18 then 8 else 7;
    qs[step % |qs|]
  }

  /** `memberIndex`: -1 for the applicant's questions, else which further member the step is about. */
  function MemberIndex(step: nat): (m: int)
    ensures step < ApplicantSteps <==> m == -1
    ensures m >= 0 ==> ApplicantSteps + 7 * m <= step < ApplicantSteps + 7 * (m + 1)
  {
    if step >= ApplicantSteps then (step - ApplicantSteps) / MemberSteps else -1
  }

  /** `currentAnswer` for the question shown at `step`. */
  function CurrentAnswer(a: Answers, step: nat): Option<string> {
    AnswerFor(a, MemberIndex(step), QuestionAt(step).id)
  }

  /** Answering the shown question through `handleAnswer` makes it the current answer. */
  lemma AnswerThenRead(a: Answers, step: nat, value: string)
    ensures CurrentAnswer(SetAnswer(a, QuestionAt(step).id, value, MemberIndex(step)), step) == Some(value)
  {
  }

  /** The follow-up text field a 'Yes' to this question requires, with the message shown when it is empty. */
  function FollowUp(id: string): Option<(string, string)> {
    if id == "prescriptionDrugs" then Some(("prescriptionDrugsList", "Please list the prescription medications before proceeding."))
    else if id == "specialNeeds" then Some(("specialNeedsList", "Please describe the special medical coverage needs before proceeding."))
    else None
  }

  /** A 'Yes' to the prescription or special-needs question whose list field is still empty. */
  predicate FollowUpMissing(a: Answers, step: nat) {
    var q := QuestionAt(step);
    FollowUp(q.id).Some? && CurrentAnswer(a, step) == Some("Yes")
      && !Truthy(AnswerFor(a, MemberIndex(step), FollowUp(q.id).value.0))
  }

  /** The answer at `step` lets Next go on: given, valid, and with its follow-up list when one is needed. */
  predicate Accepted(a: Answers, step: nat) {
    && Truthy(CurrentAnswer(a, step))
    && Passes(QuestionAt(step).rule, CurrentAnswer(a, step).value)
    && !FollowUpMissing(a, step)
  }

  const Unanswered := "Please answer the question before proceeding."

  /** `totalQuestions`: 18 plus seven per further member when `householdSize` is set (JavaScript arithmetic on the string). */
  function TotalQuestions(a: Answers): Number {
    var size := Lookup(a.fields, "householdSize");
    if !Truthy(size) then Finite(ApplicantSteps)
    else match ToNumber(size.value)
      case Finite(n) => Finite(ApplicantSteps + (n - 1) * MemberSteps)
      case other => other
  }

  /** `step < totalQuestions - 1`. */
  predicate BeforeLastStep(a: Answers, step: nat) {
    match TotalQuestions(a)
    case Finite(t) => step < t - 1
    case PosInfinity => true
    case _ => false
  }

  /** With a household size `n` that passed its check there are 18 + 7·(n − 1) steps, between 18 and 144. */
  lemma TotalForValidSize(a: Answers, n: int)
    requires "householdSize" in a.fields && Passes(HouseholdRange, a.fields["householdSize"])
    requires ToNumber(a.fields["householdSize"]) == Finite(n)
    ensures TotalQuestions(a) == Finite(18 + (n - 1) * 7) && 18 <= 18 + (n - 1) * 7 <= 144
  {
    var size := a.fields["householdSize"];
    assert 1 <= n <= 19 by {
      HouseholdRangeBounds(size);
    }
    assert size != "" by {
      TrimEmptyIffAllSpace(size);
    }
    assert Lookup(a.fields, "householdSize") == Some(size);
  }

  // --------------------------------------------- the order questions come in

  /** No two questions of a section share an id. */
  lemma SectionIdsDistinct(qs: seq<Question>, a: nat, b: nat)
    requires qs == PersonalQuestions || qs == MemberQuestions
    requires a < b < |qs|
    ensures qs[a].id != qs[b].id
  {
  }

  /** The personal section, steps 10 to 17, asks each of its eight questions exactly once. */
  lemma PersonalSectionAsksEachOnce(i: nat)
    requires i < |PersonalQuestions|
    ensures exists k :: 10 <= k < 18 && QuestionAt(k) == PersonalQuestions[i]
    ensures forall k, l :: 10 <= k < l < 18 ==> QuestionAt(k) != QuestionAt(l)
  {
    var k := 10 + (i + 6) % 8;
    assert k % 8 == i;
    assert QuestionAt(k) == PersonalQuestions[i];
    forall k, l | 10 <= k < l < 18 ensures QuestionAt(k) != QuestionAt(l) {
      var a, b := k % 8, l % 8;
      if a < b {
        SectionIdsDistinct(PersonalQuestions, a, b);
      } else {
        SectionIdsDistinct(PersonalQuestions, b, a);
      }
    }
  }

  /** Position `j` of member block `m` is step `18 + 7m + j`, whose index modulo seven is `(j + 4) % 7`. */
  lemma MemberStep(m: nat, j: nat)
    requires j < 7
    ensures (18 + 7 * m + j) % 7 == (j + 4) % 7 == (if j < 3 then j + 4 else j - 3)
    ensures MemberIndex(18 + 7 * m + j) == m
    ensures QuestionAt(18 + 7 * m + j) == MemberQuestions[if j < 3 then j + 4 else j - 3]
  {
    assert 18 + 7 * m + j == 7 * (m + 2) + (j + 4);
    assert (18 + 7 * m + j - 18) == 7 * m + j;
  }

  /** Two member steps fewer than seven apart show different questions. */
  lemma MemberStepsDiffer(k: nat, l: nat)
    requires 18 <= k < l < k + 7
    ensures QuestionAt(k) != QuestionAt(l)
  {
    var x, y := k % 7, l % 7;
    assert x != y;
    if x < y {
      SectionIdsDistinct(MemberQuestions, x, y);
    } else {
      SectionIdsDistinct(MemberQuestions, y, x);
    }
  }

  /** The seven steps of household member `m` ask each member question exactly once. */
  lemma MemberBlockAsksEachOnce(m: nat, i: nat)
    requires i < |MemberQuestions|
    ensures exists k :: 18 + 7 * m <= k < 18 + 7 * m + 7 && QuestionAt(k) == MemberQuestions[i]
                                                        && MemberIndex(k) == m
    ensures forall k, l :: 18 + 7 * m <= k < l < 18 + 7 * m + 7 ==> QuestionAt(k) != QuestionAt(l)
  {
    var j := if i < 4 then i + 3 else i - 4;
    assert QuestionAt(18 + 7 * m + j) == MemberQuestions[i] && MemberIndex(18 + 7 * m + j) == m by {
      MemberStep(m, j);
    }
    forall k, l | 18 + 7 * m <= k < l < 18 + 7 * m + 7 ensures QuestionAt(k) != QuestionAt(l) {
      MemberStepsDiffer(k, l);
    }
  }

  /** As written, step 10 shows the third personal question and step 18 the fifth member question. */
  lemma SectionsStartMidway()
    ensures QuestionAt(10) == PersonalQuestions[2] && QuestionAt(10).id == "eligibleForCoverage"
    ensures QuestionAt(18) == MemberQuestions[4] && QuestionAt(18).id == "tobacco"
    ensures QuestionAt(10) != PersonalQuestions[0] && QuestionAt(18) != MemberQuestions[0]
  {
  }

  /** The index the sections were evidently meant to use: position since the section's first step. */
  function QuestionInOrder(step: nat): (q: Question)
    ensures q in Section(step)
  {
    var offset := if step < |MainQuestions| then 0 else if step < ApplicantSteps then |MainQuestions| else ApplicantSteps;
    Section(step)[(step - offset) % |Section(step)|]
  }

  /** With that index the household and personal sections are asked from their first question on, in order. */
  lemma InOrderApplicantSteps(k: nat)
    ensures k < 10 ==> QuestionInOrder(k) == MainQuestions[k]
    ensures k < 8 ==> QuestionInOrder(10 + k) == PersonalQuestions[k]
  {
    if k < 10 {
      assert Section(k) == MainQuestions && k % 10 == k;
    }
    if k < 8 {
      assert Section(10 + k) == PersonalQuestions && (10 + k - 10) % 8 == k;
    }
  }

  /** ... and so is every member block. */
  lemma InOrderMemberBlock(m: nat, k: nat)
    requires k < 7
    ensures QuestionInOrder(18 + 7 * m + k) == MemberQuestions[k]
  {
    assert (18 + 7 * m + k - 18) % 7 == k by {
      assert 18 + 7 * m + k - 18 == 7 * m + k;
    }
  }

  // -------------------------------------------------------- the component

  class Consultation {
    var step: int
    var answers: Answers
    var error: string
    var showFinalPage: bool

    ghost predicate Valid()
      reads this
    {
      step >= 0
    }

    constructor ()
      ensures Valid()
      ensures step == 0 && answers == NoAnswers && error == "" && !showFinalPage
    {
      step := 0;
      answers := NoAnswers;
      error := "";
      showFinalPage := false;
    }

    /** `handleAnswer(id, value, memberIndex)`. */
    method HandleAnswer(id: string, value: string, memberIndex: int)
      requires memberIndex >= -1
      modifies this`answers
      ensures answers == SetAnswer(old(answers), id, value, memberIndex)
    {
      answers := SetAnswer(answers, id, value, memberIndex);
    }

    /** `handleCurrencyChange`: the typed text with every non-digit removed becomes the answer. */
    method HandleCurrencyChange(typed: string, id: string, memberIndex: int)
      requires memberIndex >= -1
      modifies this`answers
      ensures answers == SetAnswer(old(answers), id, KeepDigits(typed), memberIndex)
      ensures AnswerFor(answers, memberIndex, id) == Some(KeepDigits(typed))
      ensures AllDigits(AnswerFor(answers, memberIndex, id).value)
    {
      var digits := KeepDigits(typed);
      HandleAnswer(id, digits, memberIndex);
    }

    /** `handleNext`. */
    method HandleNext()
      requires Valid()
      modifies this`step, this`error, this`showFinalPage
      ensures Valid()
      ensures !Truthy(CurrentAnswer(answers, old(step))) ==>
        error == Unanswered && step == old(step) && showFinalPage == old(showFinalPage)
      ensures Truthy(CurrentAnswer(answers, old(step)))
              && !Passes(QuestionAt(old(step)).rule, CurrentAnswer(answers, old(step)).value) ==>
        error == QuestionAt(old(step)).errorMessage && step == old(step) && showFinalPage == old(showFinalPage)
      ensures Truthy(CurrentAnswer(answers, old(step)))
              && Passes(QuestionAt(old(step)).rule, CurrentAnswer(answers, old(step)).value)
              && FollowUpMissing(answers, old(step)) ==>
        error == FollowUp(QuestionAt(old(step)).id).value.1 && step == old(step) && showFinalPage == old(showFinalPage)
      ensures Accepted(answers, old(step)) ==>
        && error == ""
        && (if BeforeLastStep(answers, old(step))
            then step == old(step) + 1 && showFinalPage == old(showFinalPage)
            else step == old(step) && showFinalPage)
    {
      var question := QuestionAt(step);
      var memberIndex := MemberIndex(step);
      var current := AnswerFor(answers, memberIndex, question.id);

      if !Truthy(current) {
        error := Unanswered;
        return;
      }
      if !Passes(question.rule, current.value) {
        error := question.errorMessage;
        return;
      }
      // the prescription and special-needs questions want their list when answered 'Yes'
      var followUp := FollowUp(question.id);
      if followUp.Some? && current.value == "Yes" {
        var list := AnswerFor(answers, memberIndex, followUp.value.0);
        if !Truthy(list) {
          error := followUp.value.1;
          return;
        }
      }

      if BeforeLastStep(answers, step) {
        step := step + 1;
      } else {
        showFinalPage := true;
      }
      error := "";
    }

    /** `handleBack`: one step back, never below the first step. */
    method HandleBack()
      requires Valid()
      modifies this`step
      ensures Valid()
      ensures step == if old(step) > 0 then old(step) - 1 else old(step)
    {
      if step > 0 {
        step := step - 1;
      }
    }
  }
}
