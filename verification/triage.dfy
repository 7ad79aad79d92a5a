/** The whole triage core over the catalog: `analyze_symptoms` on
    `CONDITIONS`, and how the follow-up evaluator's branches line up with the
    catalog's entries and questions. */
module Triage {
  import opened Options
  import opened Normalize
  import opened Entries
  import opened Catalog
  import opened Matcher
  import opened FollowUp

  /** `analyze_symptoms` over `CONDITIONS`. */
  function AnalyzeSymptoms(userText: string): (r: Analysis)
    ensures |r.possibleConditions| <= 3
  {
    CatalogWellFormed();
    Analyze(Conditions, userText)
  }
  // ---------------------------------------------------------------------
  // The evaluator against the catalog
  // ---------------------------------------------------------------------

  /** Condition `c` shows a follow-up question with text `q`. */
  predicate Asks(c: Condition, q: string)
  {
    exists i | 0 <= i < |c.followUp| :: c.followUp[i].text == q
  }

  /** Which catalog positions have a branch. */
  lemma CatalogIdsWithBranch()
    ensures forall i | 0 <= i < |CatalogIds| :: (CatalogIds[i] in RuleIds <==> i in {0, 1, 4, 5, 6, 7})
  {
    forall i | 0 <= i < |CatalogIds|
      ensures CatalogIds[i] in RuleIds <==> i in {0, 1, 4, 5, 6, 7}
    {
      if i in {0, 1, 4, 5, 6, 7} {
        assert CatalogIds[i] in RuleIds;
      } else {
        assert CatalogIds[i] !in RuleIds;
      }
    }
  }

  /** Every id with a branch is a catalog id; the six of them are the
      entries at positions 0, 1, 4, 5, 6 and 7, and the other ten entries
      fall through to the default. */
  lemma RuleIdsCoverCatalog()
    ensures forall i | 0 <= i < |Conditions| :: (Conditions[i].id in RuleIds <==> i in {0, 1, 4, 5, 6, 7})
    ensures forall id | id in RuleIds :: exists i | 0 <= i < |Conditions| :: Conditions[i].id == id
  {
    CatalogIdsInOrder();
    CatalogIdsWithBranch();
    forall id | id in RuleIds
      ensures exists i | 0 <= i < |Conditions| :: Conditions[i].id == id
    {
      var i := if id == "heart" then 0 else if id == "breathing" then 1 else if id == "viral" then 4
        else if id == "stomach" then 5 else if id == "food_poisoning" then 6 else 7;
      assert Conditions[i].id == CatalogIds[i] == id;
    }
  }

  /** The viral and stomach branches read a question their catalog entry
      asks; the food-poisoning branch reads a key its entry never asks. */
  lemma NumericKeysAgainstCatalog()
    ensures Conditions[4].id == "viral" && Asks(Conditions[4], FeverDaysQuestion)
    ensures Conditions[5].id == "stomach" && Asks(Conditions[5], PainQuestion)
    ensures Conditions[6].id == "food_poisoning" && !Asks(Conditions[6], EpisodesQuestion)
  {
    assert Conditions[4].followUp[0].text == FeverDaysQuestion;
    assert Conditions[5].followUp[1].text == PainQuestion;
    var f := Conditions[6].followUp;
    assert |f| == 2 && f[0].text == "How many times today?" && f[1].text == "Are you able to drink fluids?";
    assert f[0].text != EpisodesQuestion && f[1].text != EpisodesQuestion by {
      assert |f[0].text| != |EpisodesQuestion|;
      assert |f[1].text| != |EpisodesQuestion|;
    }
  }

  /** Answering only what the food-poisoning entry asks can never raise it
      to High: the episode count it reads is missing and counts as 0. */
  lemma FoodPoisoningNeverHighFromCatalog(answers: Answers)
    requires forall q | q in answers :: Asks(Conditions[6], q)
    ensures EvaluateFollowup("food_poisoning", answers).finalSeverity == "Medium"
  {
    NumericKeysAgainstCatalog();
    assert EpisodesQuestion !in answers;
    FoodPoisoningThreshold(answers);
  }
}
