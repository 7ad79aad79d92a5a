/** `evaluate_followup` on concrete answers. */
module FollowUpExamples {
  import opened Chars
  import opened Normalize
  import opened Numbers
  import opened FollowUp

  /** A single "No" to a heart question gives High. */
  lemma HeartNoCountsAsYes(q: string)
    ensures EvaluateFollowup("heart", map[q := Str("No")]).finalSeverity == "High"
  {
    assert Truthy(map[q := Str("No")][q]);
  }

  lemma StripSpaceYes()
    ensures Strip(" yes") == "yes"
  {
    var s := " yes";
    assert IsSpace(s[0]) && s[1..] == "yes";
    assert !IsSpace("yes"[0]) && !IsSpace("yes"[2]);
    assert DropLeadingSpace(s) == "yes";
    assert DropTrailingSpace("yes") == "yes";
  }

  lemma SpaceYesIsNotYes(a: Answers)
    requires a == map["q" := Str(" yes")]
    ensures !SaysYes(a)
  {
    assert a.Keys == {"q"};
    assert LowerStr(" yes")[0] == ' ';
  }

  lemma LowerYes()
    ensures LowerStr("yes") == "yes"
  {
  }

  /** The unused `ans_yes` would trim, the breathing branch does not: " yes"
      passes `ans_yes` yet leaves breathing at Medium. */
  lemma UntrimmedYesIgnored()
    ensures AnsYes(map["q" := Str(" yes")], "q")
    ensures EvaluateFollowup("breathing", map["q" := Str(" yes")]).finalSeverity == "Medium"
  {
    var a := map["q" := Str(" yes")];
    StripSpaceYes();
    LowerYes();
    AnsYesMeaning(a, "q");
    SpaceYesIsNotYes(a);
    BreathingRuleYes(a);
  }

  /** Heart reads truthiness, so the number 0 and the text "0" differ. */
  lemma HeartZeroQuirk(q: string)
    ensures EvaluateFollowup("heart", map[q := Num(0)]).finalSeverity == "Medium"
    ensures EvaluateFollowup("heart", map[q := Str("0")]).finalSeverity == "High"
  {
    var a := map[q := Num(0)];
    assert a.Keys == {q};
    assert !AnyTruthy(a);
    assert Truthy(map[q := Str("0")][q]);
  }

  /** A number typed as text reads as that number. */
  lemma TextNumber(q: string, n: int, text: string)
    requires text == IntToDecimal(n)
    ensures AnsNum(map[q := Str(text)], q) == n
  {
    ParseIntRoundTrip(n);
  }

  lemma ViralExamples()
    ensures EvaluateFollowup("viral", map[FeverDaysQuestion := Str("3")]).finalSeverity == "Medium"
    ensures EvaluateFollowup("viral", map[FeverDaysQuestion := Str("2")]).finalSeverity == "Low"
  {
    TextNumber(FeverDaysQuestion, 3, "3");
    TextNumber(FeverDaysQuestion, 2, "2");
    ViralThreshold(map[FeverDaysQuestion := Str("3")]);
    ViralThreshold(map[FeverDaysQuestion := Str("2")]);
  }

  lemma FoodPoisoningExamples()
    ensures EvaluateFollowup("food_poisoning", map[EpisodesQuestion := Str("6")]).finalSeverity == "High"
    ensures EvaluateFollowup("food_poisoning", map[EpisodesQuestion := Str("5")]).finalSeverity == "Medium"
  {
    TextNumber(EpisodesQuestion, 6, "6");
    TextNumber(EpisodesQuestion, 5, "5");
    FoodPoisoningThreshold(map[EpisodesQuestion := Str("6")]);
    FoodPoisoningThreshold(map[EpisodesQuestion := Str("5")]);
  }

  /** A pain score that is not a number counts as 0. */
  lemma StomachTextExample()
    ensures EvaluateFollowup("stomach", map[PainQuestion := Str("abc")]).finalSeverity == "Low"
  {
    ParseIntRejectsLetters("abc", 0);
    StomachThreshold(map[PainQuestion := Str("abc")]);
  }

  /** An id without a branch gets the default, whatever the answers. */
  lemma UnknownIdExample(answers: Answers)
    ensures EvaluateFollowup("unknown_id", answers) == Outcome("Low", GenericAdvice)
    ensures EvaluateFollowup("seizure", answers) == Outcome("Low", GenericAdvice)
  {
    assert "unknown_id" !in RuleIds;
    assert "seizure" !in RuleIds;
  }
}
