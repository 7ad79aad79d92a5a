/** The follow-up evaluator `evaluate_followup` (rules.py:308-389): a
    dispatch on the condition id, where each branch applies a yes-detection
    rule or a numeric threshold to the answers, and an id without a branch
    falls through to a Low default. */
module FollowUp {
  import opened Options
  import opened Chars
  import opened Normalize
  import opened Numbers
  import opened Entries

  /** An answer value as the widgets produce it: a string (choice or text
      question) or an integer (number question). */
  datatype Answer = Str(text: string) | Num(value: int)

  /** `answers_dict`: question text to answer. */
  type Answers = map<string, Answer>

  /** The dictionary `evaluate_followup` returns. */
  datatype Outcome = Outcome(finalSeverity: string, finalAdvice: string)

  const GenericAdvice: string := "Monitor symptoms and consult a doctor if they worsen."

  /** The question keys the numeric branches read. */
  const FeverDaysQuestion: string := "How many days have you had fever?"
  const EpisodesQuestion: string := "How many times did you vomit or have loose motions today?"
  const PainQuestion: string := "Rate your stomach pain from 1 to 10"

  /** Python truthiness of an answer value: a non-empty string, a non-zero number. */
  predicate Truthy(a: Answer)
  {
    match a
    case Str(s) => s != ""
    case Num(n) => n != 0
  }

  /** `str(v)`. */
  function Show(a: Answer): (r: string)
  {
    match a
    case Str(s) => s
    case Num(n) => IntToDecimal(n)
  }

  /** `any(answers_dict.values())` (rules.py:325). */
  predicate AnyTruthy(answers: Answers)
  {
    exists q | q in answers :: Truthy(answers[q])
  }

  /** `"yes" in [str(v).lower() for v in answers_dict.values()]`
      (rules.py:334, 379): no trimming, but any letter case. */
  predicate AnyYes(answers: Answers)
  {
    exists q | q in answers :: LowerStr(Show(answers[q])) == "yes"
  }

  /** `ans_num(q)` (rules.py:317-321): `int(answers_dict.get(q, 0))`, and 0
      when that raises. */
  function AnsNum(answers: Answers, q: string): (r: int)
  {
    if q !in answers then 0
    else match answers[q]
      case Num(n) => n
      case Str(s) => ParseInt(s).GetOr(0)
  }

  /** `ans_yes(q)` (rules.py:313-314), defined in the source but called by no
      branch: it trims before comparing. */
  predicate AnsYes(answers: Answers, q: string)
  {
    LowerStr(Strip(Show(if q in answers then answers[q] else Str("")))) == "yes"
  }

  // ---------------------------------------------------------------------
  // The branches (rules.py:323-384), one function each
  // ---------------------------------------------------------------------

  function HeartRule(answers: Answers): (r: Outcome)
    ensures r.finalSeverity in SeverityRank
  {
    if AnyTruthy(answers) then
      Outcome("High", "Chest pain with risk signs needs emergency care. Call emergency services immediately.")
    else
      Outcome("Medium", "Chest discomfort should not be ignored. Consult a doctor soon.")
  }

  function BreathingRule(answers: Answers): (r: Outcome)
    ensures r.finalSeverity in SeverityRank
  {
    if AnyYes(answers) then
      Outcome("High", "Breathing difficulty may be serious. Seek urgent medical attention immediately.")
    else
      Outcome("Medium", "If breathing discomfort continues, consult a doctor and avoid exertion.")
  }

  function ViralRule(answers: Answers): (r: Outcome)
    ensures r.finalSeverity in SeverityRank
  {
    if AnsNum(answers, FeverDaysQuestion) >= 3 then
      Outcome("Medium", "Fever lasting 3+ days needs doctor consultation and testing if required.")
    else
      Outcome("Low", "Rest, fluids, and monitor temperature.")
  }

  function FoodPoisoningRule(answers: Answers): (r: Outcome)
    ensures r.finalSeverity in SeverityRank
  {
    if AnsNum(answers, EpisodesQuestion) >= 6 then
      Outcome("High", "High risk of dehydration. Seek medical help quickly and continue ORS if possible.")
    else
      Outcome("Medium", "Take ORS, rest, and eat bland food. Consult a doctor if symptoms persist.")
  }

  function StomachRule(answers: Answers): (r: Outcome)
    ensures r.finalSeverity in SeverityRank
  {
    if AnsNum(answers, PainQuestion) >= 7 then
      Outcome("Medium", "Severe stomach pain should be checked by a doctor soon.")
    else
      Outcome("Low", "Light diet + hydration. Avoid spicy/oily meals.")
  }

  function UtiRule(answers: Answers): (r: Outcome)
    ensures r.finalSeverity in SeverityRank
  {
    if AnyYes(answers) then
      Outcome("Medium", "UTI symptoms with fever/back pain need doctor evaluation soon.")
    else
      Outcome("Low", "Drink water and monitor. Consult doctor if burning continues.")
  }

  /** The branch `evaluate_followup` takes. */
  datatype Branch = HeartBranch | BreathingBranch | ViralBranch | FoodPoisoningBranch
                  | StomachBranch | UtiBranch | DefaultBranch

  /** The ids that have a branch. */
  const RuleIds: set<string> := {"heart", "breathing", "viral", "food_poisoning", "stomach", "uti"}

  /** The branch an id selects: each id in `RuleIds` its own, any other id
      the default. */
  function BranchFor(conditionId: string): (b: Branch)
    ensures b == DefaultBranch <==> conditionId !in RuleIds
    ensures b == HeartBranch <==> conditionId == "heart"
    ensures b == BreathingBranch <==> conditionId == "breathing"
    ensures b == ViralBranch <==> conditionId == "viral"
    ensures b == FoodPoisoningBranch <==> conditionId == "food_poisoning"
    ensures b == StomachBranch <==> conditionId == "stomach"
    ensures b == UtiBranch <==> conditionId == "uti"
  {
    if conditionId == "heart" then HeartBranch
    else if conditionId == "breathing" then BreathingBranch
    else if conditionId == "viral" then ViralBranch
    else if conditionId == "food_poisoning" then FoodPoisoningBranch
    else if conditionId == "stomach" then StomachBranch
    else if conditionId == "uti" then UtiBranch
    else DefaultBranch
  }

  function ApplyBranch(b: Branch, answers: Answers): (r: Outcome)
    ensures r.finalSeverity in SeverityRank
  {
    match b
    case HeartBranch => HeartRule(answers)
    case BreathingBranch => BreathingRule(answers)
    case ViralBranch => ViralRule(answers)
    case FoodPoisoningBranch => FoodPoisoningRule(answers)
    case StomachBranch => StomachRule(answers)
    case UtiBranch => UtiRule(answers)
    case DefaultBranch => Outcome("Low", GenericAdvice)
  }

  /** `evaluate_followup(condition_id, answers_dict)`: every outcome has a
      severity `SEVERITY_RANK` knows. */
  function EvaluateFollowup(conditionId: string, answers: Answers): (r: Outcome)
    ensures r.finalSeverity in SeverityRank
    ensures conditionId !in RuleIds ==> r == Outcome("Low", GenericAdvice)
  {
    ApplyBranch(BranchFor(conditionId), answers)
  }

  // ---------------------------------------------------------------------
  // Yes-detection branches
  // ---------------------------------------------------------------------

  /** A printed number never reads as "yes", whatever the case. */
  lemma NumberIsNeverYes(n: int)
    ensures LowerStr(Show(Num(n))) != "yes"
  {
    IntToDecimalHasNoLetter(n);
    var s := IntToDecimal(n);
    if |s| == 3 {
      assert !IsLowerLetter(s[0]) && !IsUpper(s[0]);
      assert LowerStr(s)[0] == LowerChar(s[0]) != 'y';
    }
  }

  /** Heart: High exactly when some answer is a non-empty string or a
      non-zero number, so a "No" counts; otherwise Medium. */
  lemma HeartRuleTruthy(answers: Answers)
    ensures var r := EvaluateFollowup("heart", answers);
      && (r.finalSeverity == "High" <==>
            exists q | q in answers :: (answers[q].Str? && answers[q].text != "") || (answers[q].Num? && answers[q].value != 0))
      && (r.finalSeverity != "High" ==> r.finalSeverity == "Medium")
  {
    if AnyTruthy(answers) {
      var q :| q in answers && Truthy(answers[q]);
      assert (answers[q].Str? && answers[q].text != "") || (answers[q].Num? && answers[q].value != 0);
    }
  }

  /** Some answer is a string that lower-cases to exactly "yes". */
  predicate SaysYes(answers: Answers)
  {
    exists q | q in answers :: answers[q].Str? && LowerStr(answers[q].text) == "yes"
  }

  lemma AnyYesIsSaysYes(answers: Answers)
    ensures AnyYes(answers) <==> SaysYes(answers)
  {
    if AnyYes(answers) {
      var q :| q in answers && LowerStr(Show(answers[q])) == "yes";
      if answers[q].Num? {
        NumberIsNeverYes(answers[q].value);
      }
    }
  }

  /** Breathing: High exactly when some answer is a string equal to "yes" up
      to letter case (untrimmed; a number never counts); otherwise Medium. */
  lemma BreathingRuleYes(answers: Answers)
    ensures var r := EvaluateFollowup("breathing", answers);
      && (r.finalSeverity == "High" <==> SaysYes(answers))
      && (r.finalSeverity != "High" ==> r.finalSeverity == "Medium")
  {
    AnyYesIsSaysYes(answers);
  }

  /** UTI: Medium exactly when some answer is a string equal to "yes" up to
      letter case; otherwise Low. */
  lemma UtiRuleYes(answers: Answers)
    ensures var r := EvaluateFollowup("uti", answers);
      && (r.finalSeverity == "Medium" <==> SaysYes(answers))
      && (r.finalSeverity != "Medium" ==> r.finalSeverity == "Low")
  {
    AnyYesIsSaysYes(answers);
  }

  /** `ans_yes(q)` holds exactly when the answer to `q` is a string that
      reads "yes" once trimmed and lower-cased: a missing key reads as the
      empty string and a number prints without letters. */
  lemma AnsYesMeaning(answers: Answers, q: string)
    ensures AnsYes(answers, q) <==> q in answers && answers[q].Str? && LowerStr(Strip(answers[q].text)) == "yes"
  {
    if q in answers && answers[q].Num? {
      StripOfNumberIsNotYes(answers[q].value);
    }
  }

  /** A printed number, trimmed, never reads as "yes": its first character
      would have to be a letter. */
  lemma StripOfNumberIsNotYes(n: int)
    ensures LowerStr(Strip(IntToDecimal(n))) != "yes"
  {
    var s := IntToDecimal(n);
    var a := DropLeadingSpace(s);
    var t := Strip(s);
    IntToDecimalHasNoLetter(n);
    if |t| == 3 {
      assert t[0] == a[0] == s[|s| - |a|];
      assert LowerStr(t)[0] == LowerChar(t[0]) != 'y';
    }
  }

  // ---------------------------------------------------------------------
  // Numeric-threshold branches
  // ---------------------------------------------------------------------

  /** The ids whose branch reads one number. */
  const NumericIds: set<string> := {"viral", "food_poisoning", "stomach"}

  /** The one question key a numeric branch reads. */
  function NumericKey(conditionId: string): string
    requires conditionId in NumericIds
  {
    if conditionId == "viral" then FeverDaysQuestion
    else if conditionId == "food_poisoning" then EpisodesQuestion
    else PainQuestion
  }

  /** The cut points: fever for 3 or more days raises viral from Low to
      Medium, 6 or more episodes raise food poisoning from Medium to High, a
      pain score of 7 or more raises stomach from Low to Medium. */
  lemma ViralThreshold(answers: Answers)
    ensures EvaluateFollowup("viral", answers).finalSeverity
      == (if AnsNum(answers, FeverDaysQuestion) >= 3 then "Medium" else "Low")
  {
    assert EvaluateFollowup("viral", answers) == ViralRule(answers);
  }

  lemma FoodPoisoningThreshold(answers: Answers)
    ensures EvaluateFollowup("food_poisoning", answers).finalSeverity
      == (if AnsNum(answers, EpisodesQuestion) >= 6 then "High" else "Medium")
  {
    assert EvaluateFollowup("food_poisoning", answers) == FoodPoisoningRule(answers);
  }

  lemma StomachThreshold(answers: Answers)
    ensures EvaluateFollowup("stomach", answers).finalSeverity
      == (if AnsNum(answers, PainQuestion) >= 7 then "Medium" else "Low")
  {
    assert EvaluateFollowup("stomach", answers) == StomachRule(answers);
  }

  lemma SeverityRankValues()
    ensures SeverityRank["High"] == 3 && SeverityRank["Medium"] == 2 && SeverityRank["Low"] == 1
  {
  }

  lemma ViralMonotone(a1: Answers, a2: Answers)
    requires AnsNum(a1, FeverDaysQuestion) <= AnsNum(a2, FeverDaysQuestion)
    ensures SeverityRank[EvaluateFollowup("viral", a1).finalSeverity]
      <= SeverityRank[EvaluateFollowup("viral", a2).finalSeverity]
  {
    SeverityRankValues();
    ViralThreshold(a1);
    ViralThreshold(a2);
  }

  lemma FoodPoisoningMonotone(a1: Answers, a2: Answers)
    requires AnsNum(a1, EpisodesQuestion) <= AnsNum(a2, EpisodesQuestion)
    ensures SeverityRank[EvaluateFollowup("food_poisoning", a1).finalSeverity]
      <= SeverityRank[EvaluateFollowup("food_poisoning", a2).finalSeverity]
  {
    SeverityRankValues();
    FoodPoisoningThreshold(a1);
    FoodPoisoningThreshold(a2);
  }

  lemma StomachMonotone(a1: Answers, a2: Answers)
    requires AnsNum(a1, PainQuestion) <= AnsNum(a2, PainQuestion)
    ensures SeverityRank[EvaluateFollowup("stomach", a1).finalSeverity]
      <= SeverityRank[EvaluateFollowup("stomach", a2).finalSeverity]
  {
    SeverityRankValues();
    StomachThreshold(a1);
    StomachThreshold(a2);
  }

  /** A larger number never lowers the severity of a numeric branch. */
  lemma NumericRuleMonotone(conditionId: string, a1: Answers, a2: Answers)
    requires conditionId in NumericIds
    requires AnsNum(a1, NumericKey(conditionId)) <= AnsNum(a2, NumericKey(conditionId))
    ensures SeverityRank[EvaluateFollowup(conditionId, a1).finalSeverity]
      <= SeverityRank[EvaluateFollowup(conditionId, a2).finalSeverity]
  {
    match BranchFor(conditionId)
    case ViralBranch => ViralMonotone(a1, a2);
    case FoodPoisoningBranch => FoodPoisoningMonotone(a1, a2);
    case StomachBranch => StomachMonotone(a1, a2);
  }

  /** A numeric branch depends on its number alone. */
  lemma NumericRuleReadsNumber(conditionId: string, a1: Answers, a2: Answers)
    requires conditionId in NumericIds
    requires AnsNum(a1, NumericKey(conditionId)) == AnsNum(a2, NumericKey(conditionId))
    ensures EvaluateFollowup(conditionId, a1) == EvaluateFollowup(conditionId, a2)
  {
    match BranchFor(conditionId)
    case ViralBranch =>
    case FoodPoisoningBranch =>
    case StomachBranch =>
  }

  /** A numeric branch looks at its own key and nothing else: two answer
      maps that agree on that key give the same outcome. */
  lemma NumericRuleReadsOneKey(conditionId: string, a1: Answers, a2: Answers)
    requires conditionId in NumericIds
    requires NumericKey(conditionId) in a1 <==> NumericKey(conditionId) in a2
    requires NumericKey(conditionId) in a1 ==> a1[NumericKey(conditionId)] == a2[NumericKey(conditionId)]
    ensures EvaluateFollowup(conditionId, a1) == EvaluateFollowup(conditionId, a2)
  {
    NumericRuleReadsNumber(conditionId, a1, a2);
  }

  /** A missing answer and one that is not a number both count as 0. */
  lemma NumericRuleDefaultsToZero(conditionId: string, answers: Answers)
    requires conditionId in NumericIds
    requires var k := NumericKey(conditionId);
      k !in answers || (answers[k].Str? && ParseInt(answers[k].text).None?)
    ensures EvaluateFollowup(conditionId, answers)
      == EvaluateFollowup(conditionId, map[NumericKey(conditionId) := Num(0)])
  {
    var k := NumericKey(conditionId);
    assert AnsNum(answers, k) == 0;
    assert AnsNum(map[k := Num(0)], k) == 0;
    NumericRuleReadsNumber(conditionId, answers, map[k := Num(0)]);
  }

  /** Each branch looks only at truthiness, yes-detection and the three
      numeric keys, so answer maps that agree on those give one outcome. */
  lemma SameReadingsSameOutcome(conditionId: string, a1: Answers, a2: Answers)
    requires conditionId == "heart" ==> AnyTruthy(a1) == AnyTruthy(a2)
    requires AnyYes(a1) == AnyYes(a2)
    requires AnsNum(a1, FeverDaysQuestion) == AnsNum(a2, FeverDaysQuestion)
    requires AnsNum(a1, EpisodesQuestion) == AnsNum(a2, EpisodesQuestion)
    requires AnsNum(a1, PainQuestion) == AnsNum(a2, PainQuestion)
    ensures EvaluateFollowup(conditionId, a1) == EvaluateFollowup(conditionId, a2)
  {
    match BranchFor(conditionId)
    case HeartBranch =>
    case BreathingBranch =>
    case ViralBranch =>
    case FoodPoisoningBranch =>
    case StomachBranch =>
    case UtiBranch =>
    case DefaultBranch =>
  }

  lemma PrintedNumberSameNumber(q: string, n: int, k: string)
    ensures AnsNum(map[q := Num(n)], k) == AnsNum(map[q := Str(IntToDecimal(n))], k)
  {
    if k == q {
      ParseIntRoundTrip(n);
    }
  }

  lemma PrintedNumberNeverYes(q: string, n: int)
    ensures !AnyYes(map[q := Num(n)]) && !AnyYes(map[q := Str(IntToDecimal(n))])
  {
    NumberIsNeverYes(n);
    var a1 := map[q := Num(n)];
    var a2 := map[q := Str(IntToDecimal(n))];
    assert a1.Keys == {q} && a2.Keys == {q};
    assert Show(a1[q]) == Show(a2[q]) == Show(Num(n));
  }

  lemma PrintedNumberSameReadings(q: string, n: int)
    ensures var a1, a2 := map[q := Num(n)], map[q := Str(IntToDecimal(n))];
      && AnyYes(a1) == AnyYes(a2)
      && AnsNum(a1, FeverDaysQuestion) == AnsNum(a2, FeverDaysQuestion)
      && AnsNum(a1, EpisodesQuestion) == AnsNum(a2, EpisodesQuestion)
      && AnsNum(a1, PainQuestion) == AnsNum(a2, PainQuestion)
  {
    PrintedNumberNeverYes(q, n);
    PrintedNumberSameNumber(q, n, FeverDaysQuestion);
    PrintedNumberSameNumber(q, n, EpisodesQuestion);
    PrintedNumberSameNumber(q, n, PainQuestion);
  }

  /** An answer typed as a number and the same number as text give the same
      outcome in every branch but heart, where a typed 0 is falsy and the
      text "0" is not (see `HeartZeroQuirk`). */
  lemma PrintedNumberSameOutcome(conditionId: string, q: string, n: int)
    requires conditionId != "heart"
    ensures EvaluateFollowup(conditionId, map[q := Num(n)])
      == EvaluateFollowup(conditionId, map[q := Str(IntToDecimal(n))])
  {
    PrintedNumberSameReadings(q, n);
    SameReadingsSameOutcome(conditionId, map[q := Num(n)], map[q := Str(IntToDecimal(n))]);
  }
}
