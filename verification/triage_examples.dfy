/** `analyze_symptoms` on the real catalog, worked through for two texts:
    "Chest-pain!", which names a single condition, and "stomach pain fits",
    where a High entry is chosen over a Medium entry that scored more. The
    scores are established keyword by keyword: a keyword holding a character
    the text lacks is not a substring of it, and so scores nothing. */
module TriageExamples {
  import opened Options
  import opened Chars
  import opened Normalize
  import opened Scoring
  import opened Entries
  import opened Catalog
  import opened Matcher
  import opened Triage
  import NormalizeExamples

  // ---------------------------------------------------------------------
  // The two texts
  // ---------------------------------------------------------------------

  lemma StomachPainFitsIsNormal()
    ensures IsNormal("stomach pain fits")
  {
  }

  lemma StomachPainFitsFacts()
    ensures IsNormal("stomach pain fits")
    ensures Words("stomach pain fits") == ["stomach", "pain", "fits"]
  {
    StomachPainFitsIsNormal();
    StomachPainFitsTokens();
    assert "stomach" + " " + "pain" + " " + "fits" == "stomach pain fits";
    WordsOfThree("stomach", "pain", "fits");
  }

  lemma StomachPainFitsTokens()
    ensures IsToken("stomach") && IsToken("pain") && IsToken("fits")
  {
  }

  // ---------------------------------------------------------------------
  // The three keywords that score
  // ---------------------------------------------------------------------

  lemma ChestPainPhraseScores()
    ensures KeywordScore("chest pain", "chest pain") == 3
  {
    var t := "chest pain";
    LowerStrIdentity(t);
    KeywordScoreCases(t, t);
    assert OccursAt(t, t, 0);
  }

  lemma StomachPainPhraseScores()
    ensures KeywordScore("stomach pain fits", "stomach pain") == 3
  {
    var t, k := "stomach pain fits", "stomach pain";
    LowerStrIdentity(k);
    KeywordScoreCases(t, k);
    assert t[0..|k|] == k;
    assert OccursAt(t, k, 0);
  }

  lemma FitsIsToken()
    ensures IsToken(LowerStr("fits")) && LowerStr("fits") == "fits"
  {
    LowerStrIdentity("fits");
    assert IsToken("fits");
  }

  lemma StomachPainFitsAlphabet()
    ensures forall i | 0 <= i < |"stomach pain fits"| :: InAlphabet("stomach pain fits"[i])
  {
    StomachPainFitsIsNormal();
  }

  lemma FitsScoreByWords()
    ensures KeywordScore("stomach pain fits", "fits") == if LowerStr("fits") in Words("stomach pain fits") then 2 else 0
  {
    FitsIsToken();
    StomachPainFitsAlphabet();
    TokenScoreOnAlphabet("stomach pain fits", "fits");
  }

  lemma FitsTokenScores()
    ensures KeywordScore("stomach pain fits", "fits") == 2
  {
    StomachPainFitsFacts();
    FitsIsToken();
    FitsScoreByWords();
  }

  // ---------------------------------------------------------------------
  // Keywords absent from the texts
  // ---------------------------------------------------------------------

  lemma ChestPainAbsent()
    ensures !Contains("stomach pain fits", "chest pain")
  {
    MissingCharNotContained("stomach pain fits", "chest pain", 'e');
  }

  lemma PressureInChestAbsent()
    ensures !Contains("chest pain", "pressure in chest") && !Contains("stomach pain fits", "pressure in chest")
  {
    MissingCharNotContained("chest pain", "pressure in chest", 'r');
    MissingCharNotContained("stomach pain fits", "pressure in chest", 'r');
  }

  lemma TightnessInChestAbsent()
    ensures !Contains("chest pain", "tightness in chest") && !Contains("stomach pain fits", "tightness in chest")
  {
    MissingCharNotContained("chest pain", "tightness in chest", 'g');
    MissingCharNotContained("stomach pain fits", "tightness in chest", 'g');
  }

  lemma PainInChestAbsent()
    ensures !Contains("chest pain", "pain in chest") && !Contains("stomach pain fits", "pain in chest")
  {
    assert |"pain in chest"| > |"chest pain"|;
    MissingCharNotContained("stomach pain fits", "pain in chest", 'e');
  }

  lemma HeartPainAbsent()
    ensures !Contains("chest pain", "heart pain") && !Contains("stomach pain fits", "heart pain")
  {
    MissingCharNotContained("chest pain", "heart pain", 'r');
    MissingCharNotContained("stomach pain fits", "heart pain", 'e');
  }

  lemma ShortnessOfBreathAbsent()
    ensures !Contains("chest pain", "shortness of breath") && !Contains("stomach pain fits", "shortness of breath")
  {
    MissingCharNotContained("chest pain", "shortness of breath", 'o');
    MissingCharNotContained("stomach pain fits", "shortness of breath", 'r');
  }

  lemma DifficultyBreathingAbsent()
    ensures !Contains("chest pain", "difficulty breathing") && !Contains("stomach pain fits", "difficulty breathing")
  {
    MissingCharNotContained("chest pain", "difficulty breathing", 'd');
    MissingCharNotContained("stomach pain fits", "difficulty breathing", 'd');
  }

  lemma BreathlessnessAbsent()
    ensures !Contains("chest pain", "breathlessness") && !Contains("stomach pain fits", "breathlessness")
  {
    MissingCharNotContained("chest pain", "breathlessness", 'b');
    MissingCharNotContained("stomach pain fits", "breathlessness", 'b');
  }

  lemma CantBreatheAbsent()
    ensures !Contains("chest pain", "cant breathe") && !Contains("stomach pain fits", "cant breathe")
  {
    MissingCharNotContained("chest pain", "cant breathe", 'b');
    MissingCharNotContained("stomach pain fits", "cant breathe", 'b');
  }

  lemma BreathingProblemAbsent()
    ensures !Contains("chest pain", "breathing problem") && !Contains("stomach pain fits", "breathing problem")
  {
    MissingCharNotContained("chest pain", "breathing problem", 'b');
    MissingCharNotContained("stomach pain fits", "breathing problem", 'b');
  }

  lemma BreathlessAbsent()
    ensures !Contains("chest pain", "breathless") && !Contains("stomach pain fits", "breathless")
  {
    MissingCharNotContained("chest pain", "breathless", 'b');
    MissingCharNotContained("stomach pain fits", "breathless", 'b');
  }

  lemma SeizureAbsent()
    ensures !Contains("chest pain", "seizure") && !Contains("stomach pain fits", "seizure")
  {
    MissingCharNotContained("chest pain", "seizure", 'z');
    MissingCharNotContained("stomach pain fits", "seizure", 'e');
  }

  lemma FitsAbsent()
    ensures !Contains("chest pain", "fits")
  {
    MissingCharNotContained("chest pain", "fits", 'f');
  }

  lemma ConvulsionsAbsent()
    ensures !Contains("chest pain", "convulsions") && !Contains("stomach pain fits", "convulsions")
  {
    MissingCharNotContained("chest pain", "convulsions", 'o');
    MissingCharNotContained("stomach pain fits", "convulsions", 'v');
  }

  lemma HeavyBleedingAbsent()
    ensures !Contains("chest pain", "heavy bleeding") && !Contains("stomach pain fits", "heavy bleeding")
  {
    MissingCharNotContained("chest pain", "heavy bleeding", 'v');
    MissingCharNotContained("stomach pain fits", "heavy bleeding", 'e');
  }

  lemma SevereBleedingAbsent()
    ensures !Contains("chest pain", "severe bleeding") && !Contains("stomach pain fits", "severe bleeding")
  {
    MissingCharNotContained("chest pain", "severe bleeding", 'v');
    MissingCharNotContained("stomach pain fits", "severe bleeding", 'e');
  }

  lemma BloodLossAbsent()
    ensures !Contains("chest pain", "blood loss") && !Contains("stomach pain fits", "blood loss")
  {
    MissingCharNotContained("chest pain", "blood loss", 'b');
    MissingCharNotContained("stomach pain fits", "blood loss", 'b');
  }

  lemma BleedingALotAbsent()
    ensures !Contains("chest pain", "bleeding a lot") && !Contains("stomach pain fits", "bleeding a lot")
  {
    MissingCharNotContained("chest pain", "bleeding a lot", 'b');
    MissingCharNotContained("stomach pain fits", "bleeding a lot", 'b');
  }

  lemma FeverAbsent()
    ensures !Contains("chest pain", "fever") && !Contains("stomach pain fits", "fever")
  {
    MissingCharNotContained("chest pain", "fever", 'f');
    MissingCharNotContained("stomach pain fits", "fever", 'e');
  }

  lemma HighTemperatureAbsent()
    ensures !Contains("chest pain", "high temperature") && !Contains("stomach pain fits", "high temperature")
  {
    MissingCharNotContained("chest pain", "high temperature", 'g');
    MissingCharNotContained("stomach pain fits", "high temperature", 'g');
  }

  lemma BodyPainAbsent()
    ensures !Contains("chest pain", "body pain") && !Contains("stomach pain fits", "body pain")
  {
    MissingCharNotContained("chest pain", "body pain", 'b');
    MissingCharNotContained("stomach pain fits", "body pain", 'b');
  }

  lemma FatigueAbsent()
    ensures !Contains("chest pain", "fatigue") && !Contains("stomach pain fits", "fatigue")
  {
    MissingCharNotContained("chest pain", "fatigue", 'f');
    MissingCharNotContained("stomach pain fits", "fatigue", 'g');
  }

  lemma WeaknessAbsent()
    ensures !Contains("chest pain", "weakness") && !Contains("stomach pain fits", "weakness")
  {
    MissingCharNotContained("chest pain", "weakness", 'w');
    MissingCharNotContained("stomach pain fits", "weakness", 'w');
  }

  lemma HeadacheAbsent()
    ensures !Contains("chest pain", "headache") && !Contains("stomach pain fits", "headache")
  {
    MissingCharNotContained("chest pain", "headache", 'd');
    MissingCharNotContained("stomach pain fits", "headache", 'e');
  }

  lemma StomachPainAbsent()
    ensures !Contains("chest pain", "stomach pain")
  {
    MissingCharNotContained("chest pain", "stomach pain", 'o');
  }

  lemma AbdominalPainAbsent()
    ensures !Contains("chest pain", "abdominal pain") && !Contains("stomach pain fits", "abdominal pain")
  {
    MissingCharNotContained("chest pain", "abdominal pain", 'b');
    MissingCharNotContained("stomach pain fits", "abdominal pain", 'b');
  }

  lemma StomachAcheAbsent()
    ensures !Contains("chest pain", "stomach ache") && !Contains("stomach pain fits", "stomach ache")
  {
    MissingCharNotContained("chest pain", "stomach ache", 'o');
    MissingCharNotContained("stomach pain fits", "stomach ache", 'e');
  }

  lemma BellyPainAbsent()
    ensures !Contains("chest pain", "belly pain") && !Contains("stomach pain fits", "belly pain")
  {
    MissingCharNotContained("chest pain", "belly pain", 'b');
    MissingCharNotContained("stomach pain fits", "belly pain", 'b');
  }

  lemma CrampsAbsent()
    ensures !Contains("chest pain", "cramps") && !Contains("stomach pain fits", "cramps")
  {
    MissingCharNotContained("chest pain", "cramps", 'r');
    MissingCharNotContained("stomach pain fits", "cramps", 'r');
  }

  lemma VomitingAbsent()
    ensures !Contains("chest pain", "vomiting") && !Contains("stomach pain fits", "vomiting")
  {
    MissingCharNotContained("chest pain", "vomiting", 'v');
    MissingCharNotContained("stomach pain fits", "vomiting", 'v');
  }

  lemma NauseaAbsent()
    ensures !Contains("chest pain", "nausea") && !Contains("stomach pain fits", "nausea")
  {
    MissingCharNotContained("chest pain", "nausea", 'u');
    MissingCharNotContained("stomach pain fits", "nausea", 'u');
  }

  lemma DiarrheaAbsent()
    ensures !Contains("chest pain", "diarrhea") && !Contains("stomach pain fits", "diarrhea")
  {
    MissingCharNotContained("chest pain", "diarrhea", 'd');
    MissingCharNotContained("stomach pain fits", "diarrhea", 'd');
  }

  lemma LooseMotionsAbsent()
    ensures !Contains("chest pain", "loose motions") && !Contains("stomach pain fits", "loose motions")
  {
    MissingCharNotContained("chest pain", "loose motions", 'l');
    MissingCharNotContained("stomach pain fits", "loose motions", 'l');
  }

  lemma WateryStoolsAbsent()
    ensures !Contains("chest pain", "watery stools") && !Contains("stomach pain fits", "watery stools")
  {
    MissingCharNotContained("chest pain", "watery stools", 'w');
    MissingCharNotContained("stomach pain fits", "watery stools", 'w');
  }

  lemma BurningUrinationAbsent()
    ensures !Contains("chest pain", "burning urination") && !Contains("stomach pain fits", "burning urination")
  {
    MissingCharNotContained("chest pain", "burning urination", 'b');
    MissingCharNotContained("stomach pain fits", "burning urination", 'b');
  }

  lemma FrequentUrinationAbsent()
    ensures !Contains("chest pain", "frequent urination") && !Contains("stomach pain fits", "frequent urination")
  {
    MissingCharNotContained("chest pain", "frequent urination", 'f');
    MissingCharNotContained("stomach pain fits", "frequent urination", 'r');
  }

  lemma UtiAbsent()
    ensures !Contains("chest pain", "uti") && !Contains("stomach pain fits", "uti")
  {
    MissingCharNotContained("chest pain", "uti", 'u');
    MissingCharNotContained("stomach pain fits", "uti", 'u');
  }

  lemma EarPainAbsent()
    ensures !Contains("chest pain", "ear pain") && !Contains("stomach pain fits", "ear pain")
  {
    MissingCharNotContained("chest pain", "ear pain", 'r');
    MissingCharNotContained("stomach pain fits", "ear pain", 'e');
  }

  lemma EarAcheAbsent()
    ensures !Contains("chest pain", "ear ache") && !Contains("stomach pain fits", "ear ache")
  {
    MissingCharNotContained("chest pain", "ear ache", 'r');
    MissingCharNotContained("stomach pain fits", "ear ache", 'e');
  }

  lemma EarInfectionAbsent()
    ensures !Contains("chest pain", "ear infection") && !Contains("stomach pain fits", "ear infection")
  {
    MissingCharNotContained("chest pain", "ear infection", 'r');
    MissingCharNotContained("stomach pain fits", "ear infection", 'e');
  }

  lemma WateryEyesAbsent()
    ensures !Contains("chest pain", "watery eyes") && !Contains("stomach pain fits", "watery eyes")
  {
    MissingCharNotContained("chest pain", "watery eyes", 'w');
    MissingCharNotContained("stomach pain fits", "watery eyes", 'w');
  }

  lemma EyeIrritationAbsent()
    ensures !Contains("chest pain", "eye irritation") && !Contains("stomach pain fits", "eye irritation")
  {
    MissingCharNotContained("chest pain", "eye irritation", 'y');
    MissingCharNotContained("stomach pain fits", "eye irritation", 'e');
  }

  lemma RedEyesAbsent()
    ensures !Contains("chest pain", "red eyes") && !Contains("stomach pain fits", "red eyes")
  {
    MissingCharNotContained("chest pain", "red eyes", 'r');
    MissingCharNotContained("stomach pain fits", "red eyes", 'r');
  }

  lemma EyePainAbsent()
    ensures !Contains("chest pain", "eye pain") && !Contains("stomach pain fits", "eye pain")
  {
    MissingCharNotContained("chest pain", "eye pain", 'y');
    MissingCharNotContained("stomach pain fits", "eye pain", 'e');
  }

  lemma BurpingAbsent()
    ensures !Contains("chest pain", "burping") && !Contains("stomach pain fits", "burping")
  {
    MissingCharNotContained("chest pain", "burping", 'b');
    MissingCharNotContained("stomach pain fits", "burping", 'b');
  }

  lemma GasAbsent()
    ensures !Contains("chest pain", "gas") && !Contains("stomach pain fits", "gas")
  {
    MissingCharNotContained("chest pain", "gas", 'g');
    MissingCharNotContained("stomach pain fits", "gas", 'g');
  }

  lemma BloatingAbsent()
    ensures !Contains("chest pain", "bloating") && !Contains("stomach pain fits", "bloating")
  {
    MissingCharNotContained("chest pain", "bloating", 'b');
    MissingCharNotContained("stomach pain fits", "bloating", 'b');
  }

  lemma BelchingAbsent()
    ensures !Contains("chest pain", "belching") && !Contains("stomach pain fits", "belching")
  {
    MissingCharNotContained("chest pain", "belching", 'b');
    MissingCharNotContained("stomach pain fits", "belching", 'b');
  }

  lemma LegPainAbsent()
    ensures !Contains("chest pain", "leg pain") && !Contains("stomach pain fits", "leg pain")
  {
    MissingCharNotContained("chest pain", "leg pain", 'l');
    MissingCharNotContained("stomach pain fits", "leg pain", 'l');
  }

  lemma CalfPainAbsent()
    ensures !Contains("chest pain", "calf pain") && !Contains("stomach pain fits", "calf pain")
  {
    MissingCharNotContained("chest pain", "calf pain", 'l');
    MissingCharNotContained("stomach pain fits", "calf pain", 'l');
  }

  lemma ThighPainAbsent()
    ensures !Contains("chest pain", "thigh pain") && !Contains("stomach pain fits", "thigh pain")
  {
    MissingCharNotContained("chest pain", "thigh pain", 'g');
    MissingCharNotContained("stomach pain fits", "thigh pain", 'g');
  }

  lemma ArmPainAbsent()
    ensures !Contains("chest pain", "arm pain") && !Contains("stomach pain fits", "arm pain")
  {
    MissingCharNotContained("chest pain", "arm pain", 'r');
    MissingCharNotContained("stomach pain fits", "arm pain", 'r');
  }

  lemma ShoulderPainAbsent()
    ensures !Contains("chest pain", "shoulder pain") && !Contains("stomach pain fits", "shoulder pain")
  {
    MissingCharNotContained("chest pain", "shoulder pain", 'o');
    MissingCharNotContained("stomach pain fits", "shoulder pain", 'u');
  }

  lemma ElbowPainAbsent()
    ensures !Contains("chest pain", "elbow pain") && !Contains("stomach pain fits", "elbow pain")
  {
    MissingCharNotContained("chest pain", "elbow pain", 'l');
    MissingCharNotContained("stomach pain fits", "elbow pain", 'e');
  }

  lemma JointPainAbsent()
    ensures !Contains("chest pain", "joint pain") && !Contains("stomach pain fits", "joint pain")
  {
    MissingCharNotContained("chest pain", "joint pain", 'j');
    MissingCharNotContained("stomach pain fits", "joint pain", 'j');
  }

  lemma KneePainAbsent()
    ensures !Contains("chest pain", "knee pain") && !Contains("stomach pain fits", "knee pain")
  {
    MissingCharNotContained("chest pain", "knee pain", 'k');
    MissingCharNotContained("stomach pain fits", "knee pain", 'k');
  }

  lemma ShoulderJointPainAbsent()
    ensures !Contains("chest pain", "shoulder joint pain") && !Contains("stomach pain fits", "shoulder joint pain")
  {
    MissingCharNotContained("chest pain", "shoulder joint pain", 'o');
    MissingCharNotContained("stomach pain fits", "shoulder joint pain", 'u');
  }

  lemma BackPainAbsent()
    ensures !Contains("chest pain", "back pain") && !Contains("stomach pain fits", "back pain")
  {
    MissingCharNotContained("chest pain", "back pain", 'b');
    MissingCharNotContained("stomach pain fits", "back pain", 'b');
  }

  lemma LowerBackPainAbsent()
    ensures !Contains("chest pain", "lower back pain") && !Contains("stomach pain fits", "lower back pain")
  {
    MissingCharNotContained("chest pain", "lower back pain", 'l');
    MissingCharNotContained("stomach pain fits", "lower back pain", 'l');
  }

  lemma SpinePainAbsent()
    ensures !Contains("chest pain", "spine pain") && !Contains("stomach pain fits", "spine pain")
  {
    assert !OccursAt("chest pain", "spine pain", 0) by {
      assert "chest pain"[0] != "spine pain"[0];
    }
    MissingCharNotContained("stomach pain fits", "spine pain", 'e');
  }

  lemma PeriodPainAbsent()
    ensures !Contains("chest pain", "period pain") && !Contains("stomach pain fits", "period pain")
  {
    MissingCharNotContained("chest pain", "period pain", 'r');
    MissingCharNotContained("stomach pain fits", "period pain", 'e');
  }

  lemma MenstrualCrampsAbsent()
    ensures !Contains("chest pain", "menstrual cramps") && !Contains("stomach pain fits", "menstrual cramps")
  {
    MissingCharNotContained("chest pain", "menstrual cramps", 'm');
    MissingCharNotContained("stomach pain fits", "menstrual cramps", 'e');
  }

  lemma PeriodCrampsAbsent()
    ensures !Contains("chest pain", "period cramps") && !Contains("stomach pain fits", "period cramps")
  {
    MissingCharNotContained("chest pain", "period cramps", 'r');
    MissingCharNotContained("stomach pain fits", "period cramps", 'e');
  }

  // ---------------------------------------------------------------------
  // Entry by entry
  // ---------------------------------------------------------------------

  lemma HeartKeywordsPlain()
    ensures HeartEntry.keywords == ["chest pain", "pressure in chest", "tightness in chest", "pain in chest", "heart pain"]
    ensures PlainKeywords(HeartEntry.keywords)
  {
    assert PlainKeyword("chest pain") && PlainKeyword("pressure in chest") && PlainKeyword("tightness in chest") && PlainKeyword("pain in chest") && PlainKeyword("heart pain");
  }

  lemma HeartScores()
    ensures MatchScore("chest pain", HeartEntry.keywords) == 3
    ensures MatchScore("stomach pain fits", HeartEntry.keywords) == 0
  {
    HeartKeywordsPlain();
    ChestPainAbsent();
    PressureInChestAbsent();
    TightnessInChestAbsent();
    PainInChestAbsent();
    HeartPainAbsent();
    ChestPainPhraseScores();
    OnlyKeywordScores("chest pain", HeartEntry.keywords, 0);
    AbsentKeywordsScoreZero("stomach pain fits", HeartEntry.keywords);
  }

  lemma BreathingKeywordsPlain()
    ensures BreathingEntry.keywords == ["shortness of breath", "difficulty breathing", "breathlessness", "cant breathe", "breathing problem", "breathless"]
    ensures PlainKeywords(BreathingEntry.keywords)
  {
    BreathingPhrasesPlain();
    BreathingWordsPlain();
  }

  lemma BreathingPhrasesPlain()
    ensures PlainKeyword("shortness of breath") && PlainKeyword("difficulty breathing") && PlainKeyword("breathing problem")
  {
    assert PlainKeyword("shortness of breath");
    assert PlainKeyword("difficulty breathing");
  }

  lemma BreathingWordsPlain()
    ensures PlainKeyword("breathlessness") && PlainKeyword("cant breathe") && PlainKeyword("breathless")
  {
    assert PlainKeyword("breathlessness");
  }

  lemma BreathingScores()
    ensures MatchScore("chest pain", BreathingEntry.keywords) == 0
    ensures MatchScore("stomach pain fits", BreathingEntry.keywords) == 0
  {
    BreathingKeywordsPlain();
    ShortnessOfBreathAbsent();
    DifficultyBreathingAbsent();
    BreathlessnessAbsent();
    CantBreatheAbsent();
    BreathingProblemAbsent();
    BreathlessAbsent();
    AbsentKeywordsScoreZero("chest pain", BreathingEntry.keywords);
    AbsentKeywordsScoreZero("stomach pain fits", BreathingEntry.keywords);
  }

  lemma SeizureKeywordsPlain()
    ensures SeizureEntry.keywords == ["seizure", "fits", "convulsions"]
    ensures PlainKeywords(SeizureEntry.keywords)
  {
    assert PlainKeyword("seizure") && PlainKeyword("fits") && PlainKeyword("convulsions");
  }

  lemma SeizureScores()
    ensures MatchScore("chest pain", SeizureEntry.keywords) == 0
    ensures MatchScore("stomach pain fits", SeizureEntry.keywords) == 2
  {
    SeizureKeywordsPlain();
    SeizureAbsent();
    FitsAbsent();
    ConvulsionsAbsent();
    AbsentKeywordsScoreZero("chest pain", SeizureEntry.keywords);
    FitsTokenScores();
    OnlyKeywordScores("stomach pain fits", SeizureEntry.keywords, 1);
  }

  lemma BleedingKeywordsPlain()
    ensures BleedingEntry.keywords == ["heavy bleeding", "severe bleeding", "blood loss", "bleeding a lot"]
    ensures PlainKeywords(BleedingEntry.keywords)
  {
    assert PlainKeyword("heavy bleeding") && PlainKeyword("severe bleeding") && PlainKeyword("blood loss") && PlainKeyword("bleeding a lot");
  }

  lemma BleedingScores()
    ensures MatchScore("chest pain", BleedingEntry.keywords) == 0
    ensures MatchScore("stomach pain fits", BleedingEntry.keywords) == 0
  {
    BleedingKeywordsPlain();
    HeavyBleedingAbsent();
    SevereBleedingAbsent();
    BloodLossAbsent();
    BleedingALotAbsent();
    AbsentKeywordsScoreZero("chest pain", BleedingEntry.keywords);
    AbsentKeywordsScoreZero("stomach pain fits", BleedingEntry.keywords);
  }

  lemma ViralKeywordsPlain()
    ensures ViralEntry.keywords == ["fever", "high temperature", "body pain", "fatigue", "weakness", "headache"]
    ensures PlainKeywords(ViralEntry.keywords)
  {
    assert PlainKeyword("fever") && PlainKeyword("high temperature") && PlainKeyword("body pain") && PlainKeyword("fatigue") && PlainKeyword("weakness") && PlainKeyword("headache");
  }

  lemma ViralScores()
    ensures MatchScore("chest pain", ViralEntry.keywords) == 0
    ensures MatchScore("stomach pain fits", ViralEntry.keywords) == 0
  {
    ViralKeywordsPlain();
    FeverAbsent();
    HighTemperatureAbsent();
    BodyPainAbsent();
    FatigueAbsent();
    WeaknessAbsent();
    HeadacheAbsent();
    AbsentKeywordsScoreZero("chest pain", ViralEntry.keywords);
    AbsentKeywordsScoreZero("stomach pain fits", ViralEntry.keywords);
  }

  lemma StomachKeywordsPlain()
    ensures StomachEntry.keywords == ["stomach pain", "abdominal pain", "stomach ache", "belly pain", "cramps"]
    ensures PlainKeywords(StomachEntry.keywords)
  {
    assert PlainKeyword("stomach pain") && PlainKeyword("abdominal pain") && PlainKeyword("stomach ache") && PlainKeyword("belly pain") && PlainKeyword("cramps");
  }

  lemma StomachScores()
    ensures MatchScore("chest pain", StomachEntry.keywords) == 0
    ensures MatchScore("stomach pain fits", StomachEntry.keywords) == 3
  {
    StomachScoresNothingOnChestPain();
    StomachScoresPhraseOnly();
  }

  lemma StomachScoresNothingOnChestPain()
    ensures MatchScore("chest pain", StomachEntry.keywords) == 0
  {
    StomachKeywordsPlain();
    StomachPainAbsent();
    AbdominalPainAbsent();
    StomachAcheAbsent();
    BellyPainAbsent();
    CrampsAbsent();
    AbsentKeywordsScoreZero("chest pain", StomachEntry.keywords);
  }

  lemma StomachScoresPhraseOnly()
    ensures MatchScore("stomach pain fits", StomachEntry.keywords) == 3
  {
    AbdominalPainAbsent();
    StomachAcheAbsent();
    BellyPainAbsent();
    CrampsAbsent();
    StomachPainPhraseScores();
    StomachPhraseAlone("stomach pain fits");
  }

  /** A text holding none of the stomach entry's keywords but the first
      scores what that keyword scores. */
  lemma StomachPhraseAlone(text: string)
    requires !Contains(text, "abdominal pain") && !Contains(text, "stomach ache")
    requires !Contains(text, "belly pain") && !Contains(text, "cramps")
    ensures MatchScore(text, StomachEntry.keywords) == KeywordScore(text, "stomach pain")
  {
    StomachKeywordsPlain();
    OnlyKeywordScores(text, StomachEntry.keywords, 0);
  }

  lemma FoodPoisoningKeywordsPlain()
    ensures FoodPoisoningEntry.keywords == ["vomiting", "nausea", "diarrhea", "loose motions", "watery stools"]
    ensures PlainKeywords(FoodPoisoningEntry.keywords)
  {
    assert PlainKeyword("vomiting") && PlainKeyword("nausea") && PlainKeyword("diarrhea") && PlainKeyword("loose motions") && PlainKeyword("watery stools");
  }

  lemma FoodPoisoningScores()
    ensures MatchScore("chest pain", FoodPoisoningEntry.keywords) == 0
    ensures MatchScore("stomach pain fits", FoodPoisoningEntry.keywords) == 0
  {
    FoodPoisoningKeywordsPlain();
    VomitingAbsent();
    NauseaAbsent();
    DiarrheaAbsent();
    LooseMotionsAbsent();
    WateryStoolsAbsent();
    AbsentKeywordsScoreZero("chest pain", FoodPoisoningEntry.keywords);
    AbsentKeywordsScoreZero("stomach pain fits", FoodPoisoningEntry.keywords);
  }

  lemma UtiKeywordsPlain()
    ensures UtiEntry.keywords == ["burning urination", "frequent urination", "uti"]
    ensures PlainKeywords(UtiEntry.keywords)
  {
    assert PlainKeyword("burning urination") && PlainKeyword("frequent urination") && PlainKeyword("uti");
  }

  lemma UtiScores()
    ensures MatchScore("chest pain", UtiEntry.keywords) == 0
    ensures MatchScore("stomach pain fits", UtiEntry.keywords) == 0
  {
    UtiKeywordsPlain();
    BurningUrinationAbsent();
    FrequentUrinationAbsent();
    UtiAbsent();
    AbsentKeywordsScoreZero("chest pain", UtiEntry.keywords);
    AbsentKeywordsScoreZero("stomach pain fits", UtiEntry.keywords);
  }

  lemma EarKeywordsPlain()
    ensures EarEntry.keywords == ["ear pain", "ear ache", "ear infection"]
    ensures PlainKeywords(EarEntry.keywords)
  {
    assert PlainKeyword("ear pain") && PlainKeyword("ear ache") && PlainKeyword("ear infection");
  }

  lemma EarScores()
    ensures MatchScore("chest pain", EarEntry.keywords) == 0
    ensures MatchScore("stomach pain fits", EarEntry.keywords) == 0
  {
    EarKeywordsPlain();
    EarPainAbsent();
    EarAcheAbsent();
    EarInfectionAbsent();
    AbsentKeywordsScoreZero("chest pain", EarEntry.keywords);
    AbsentKeywordsScoreZero("stomach pain fits", EarEntry.keywords);
  }

  lemma EyeKeywordsPlain()
    ensures EyeEntry.keywords == ["watery eyes", "eye irritation", "red eyes", "eye pain"]
    ensures PlainKeywords(EyeEntry.keywords)
  {
    assert PlainKeyword("watery eyes") && PlainKeyword("eye irritation") && PlainKeyword("red eyes") && PlainKeyword("eye pain");
  }

  lemma EyeScores()
    ensures MatchScore("chest pain", EyeEntry.keywords) == 0
    ensures MatchScore("stomach pain fits", EyeEntry.keywords) == 0
  {
    EyeKeywordsPlain();
    WateryEyesAbsent();
    EyeIrritationAbsent();
    RedEyesAbsent();
    EyePainAbsent();
    AbsentKeywordsScoreZero("chest pain", EyeEntry.keywords);
    AbsentKeywordsScoreZero("stomach pain fits", EyeEntry.keywords);
  }

  lemma BurpingKeywordsPlain()
    ensures BurpingEntry.keywords == ["burping", "gas", "bloating", "belching"]
    ensures PlainKeywords(BurpingEntry.keywords)
  {
    assert PlainKeyword("burping") && PlainKeyword("gas") && PlainKeyword("bloating") && PlainKeyword("belching");
  }

  lemma BurpingScores()
    ensures MatchScore("chest pain", BurpingEntry.keywords) == 0
    ensures MatchScore("stomach pain fits", BurpingEntry.keywords) == 0
  {
    BurpingKeywordsPlain();
    BurpingAbsent();
    GasAbsent();
    BloatingAbsent();
    BelchingAbsent();
    AbsentKeywordsScoreZero("chest pain", BurpingEntry.keywords);
    AbsentKeywordsScoreZero("stomach pain fits", BurpingEntry.keywords);
  }

  lemma LegPainKeywordsPlain()
    ensures LegPainEntry.keywords == ["leg pain", "calf pain", "thigh pain"]
    ensures PlainKeywords(LegPainEntry.keywords)
  {
    assert PlainKeyword("leg pain") && PlainKeyword("calf pain") && PlainKeyword("thigh pain");
  }

  lemma LegPainScores()
    ensures MatchScore("chest pain", LegPainEntry.keywords) == 0
    ensures MatchScore("stomach pain fits", LegPainEntry.keywords) == 0
  {
    LegPainKeywordsPlain();
    LegPainAbsent();
    CalfPainAbsent();
    ThighPainAbsent();
    AbsentKeywordsScoreZero("chest pain", LegPainEntry.keywords);
    AbsentKeywordsScoreZero("stomach pain fits", LegPainEntry.keywords);
  }

  lemma ArmPainKeywordsPlain()
    ensures ArmPainEntry.keywords == ["arm pain", "shoulder pain", "elbow pain"]
    ensures PlainKeywords(ArmPainEntry.keywords)
  {
    assert PlainKeyword("arm pain") && PlainKeyword("shoulder pain") && PlainKeyword("elbow pain");
  }

  lemma ArmPainScores()
    ensures MatchScore("chest pain", ArmPainEntry.keywords) == 0
    ensures MatchScore("stomach pain fits", ArmPainEntry.keywords) == 0
  {
    ArmPainKeywordsPlain();
    ArmPainAbsent();
    ShoulderPainAbsent();
    ElbowPainAbsent();
    AbsentKeywordsScoreZero("chest pain", ArmPainEntry.keywords);
    AbsentKeywordsScoreZero("stomach pain fits", ArmPainEntry.keywords);
  }

  lemma JointPainKeywordsPlain()
    ensures JointPainEntry.keywords == ["joint pain", "knee pain", "shoulder joint pain"]
    ensures PlainKeywords(JointPainEntry.keywords)
  {
    assert PlainKeyword("joint pain") && PlainKeyword("knee pain") && PlainKeyword("shoulder joint pain");
  }

  lemma JointPainScores()
    ensures MatchScore("chest pain", JointPainEntry.keywords) == 0
    ensures MatchScore("stomach pain fits", JointPainEntry.keywords) == 0
  {
    JointPainKeywordsPlain();
    JointPainAbsent();
    KneePainAbsent();
    ShoulderJointPainAbsent();
    AbsentKeywordsScoreZero("chest pain", JointPainEntry.keywords);
    AbsentKeywordsScoreZero("stomach pain fits", JointPainEntry.keywords);
  }

  lemma BackPainKeywordsPlain()
    ensures BackPainEntry.keywords == ["back pain", "lower back pain", "spine pain"]
    ensures PlainKeywords(BackPainEntry.keywords)
  {
    assert PlainKeyword("back pain") && PlainKeyword("lower back pain") && PlainKeyword("spine pain");
  }

  lemma BackPainScores()
    ensures MatchScore("chest pain", BackPainEntry.keywords) == 0
    ensures MatchScore("stomach pain fits", BackPainEntry.keywords) == 0
  {
    BackPainKeywordsPlain();
    BackPainAbsent();
    LowerBackPainAbsent();
    SpinePainAbsent();
    AbsentKeywordsScoreZero("chest pain", BackPainEntry.keywords);
    AbsentKeywordsScoreZero("stomach pain fits", BackPainEntry.keywords);
  }

  lemma MenstrualKeywordsPlain()
    ensures MenstrualEntry.keywords == ["period pain", "menstrual cramps", "period cramps"]
    ensures PlainKeywords(MenstrualEntry.keywords)
  {
    assert PlainKeyword("period pain") && PlainKeyword("menstrual cramps") && PlainKeyword("period cramps");
  }

  lemma MenstrualScores()
    ensures MatchScore("chest pain", MenstrualEntry.keywords) == 0
    ensures MatchScore("stomach pain fits", MenstrualEntry.keywords) == 0
  {
    MenstrualKeywordsPlain();
    PeriodPainAbsent();
    MenstrualCrampsAbsent();
    PeriodCrampsAbsent();
    AbsentKeywordsScoreZero("chest pain", MenstrualEntry.keywords);
    AbsentKeywordsScoreZero("stomach pain fits", MenstrualEntry.keywords);
  }

  // ---------------------------------------------------------------------
  // The scoring loop over the catalog, four entries at a time
  // ---------------------------------------------------------------------

  lemma EntriesFrom0()
    ensures Conditions[0] == HeartEntry && Conditions[1] == BreathingEntry && Conditions[2] == SeizureEntry && Conditions[3] == BleedingEntry
  {
  }

  lemma EntriesFrom4()
    ensures Conditions[4] == ViralEntry && Conditions[5] == StomachEntry && Conditions[6] == FoodPoisoningEntry && Conditions[7] == UtiEntry
  {
  }

  lemma EntriesFrom8()
    ensures Conditions[8] == EarEntry && Conditions[9] == EyeEntry && Conditions[10] == BurpingEntry && Conditions[11] == LegPainEntry
  {
  }

  lemma EntriesFrom12()
    ensures Conditions[12] == ArmPainEntry && Conditions[13] == JointPainEntry && Conditions[14] == BackPainEntry && Conditions[15] == MenstrualEntry
  {
  }

  /** No entry from the arm pain entry on scores, so none is collected. */
  lemma CollectNoneFrom12(text: string)
    requires MatchScore(text, ArmPainEntry.keywords) == 0
    requires MatchScore(text, JointPainEntry.keywords) == 0
    requires MatchScore(text, BackPainEntry.keywords) == 0
    requires MatchScore(text, MenstrualEntry.keywords) == 0
    ensures Collect(Conditions, text, 12) == []
  {
    assert |Conditions| == 16;
    EntriesFrom12();
    CollectStep(Conditions, text, 15);
    CollectStep(Conditions, text, 14);
    CollectStep(Conditions, text, 13);
    CollectStep(Conditions, text, 12);
  }

  lemma CollectNoneFrom8(text: string)
    requires MatchScore(text, EarEntry.keywords) == 0
    requires MatchScore(text, EyeEntry.keywords) == 0
    requires MatchScore(text, BurpingEntry.keywords) == 0
    requires MatchScore(text, LegPainEntry.keywords) == 0
    requires Collect(Conditions, text, 12) == []
    ensures Collect(Conditions, text, 8) == []
  {
    assert |Conditions| == 16;
    EntriesFrom8();
    CollectStep(Conditions, text, 11);
    CollectStep(Conditions, text, 10);
    CollectStep(Conditions, text, 9);
    CollectStep(Conditions, text, 8);
  }

  lemma CollectNoneFrom4(text: string)
    requires MatchScore(text, ViralEntry.keywords) == 0
    requires MatchScore(text, StomachEntry.keywords) == 0
    requires MatchScore(text, FoodPoisoningEntry.keywords) == 0
    requires MatchScore(text, UtiEntry.keywords) == 0
    requires Collect(Conditions, text, 8) == []
    ensures Collect(Conditions, text, 4) == []
  {
    assert |Conditions| == 16;
    EntriesFrom4();
    CollectStep(Conditions, text, 7);
    CollectStep(Conditions, text, 6);
    CollectStep(Conditions, text, 5);
    CollectStep(Conditions, text, 4);
  }

  /** Of the entries from the viral entry on, only the stomach entry scores. */
  lemma CollectStomachFrom4(text: string)
    requires MatchScore(text, ViralEntry.keywords) == 0
    requires MatchScore(text, StomachEntry.keywords) > 0
    requires MatchScore(text, FoodPoisoningEntry.keywords) == 0
    requires MatchScore(text, UtiEntry.keywords) == 0
    requires Collect(Conditions, text, 8) == []
    ensures Collect(Conditions, text, 4) == [Match(MatchScore(text, StomachEntry.keywords), 5, StomachEntry)]
  {
    assert |Conditions| == 16;
    EntriesFrom4();
    CollectStep(Conditions, text, 7);
    CollectStep(Conditions, text, 6);
    CollectStep(Conditions, text, 5);
    CollectStep(Conditions, text, 4);
  }

  /** Of the first four entries only the heart entry scores: it heads the list. */
  lemma CollectHeartFrom0(text: string, rest: seq<Match>)
    requires MatchScore(text, HeartEntry.keywords) > 0
    requires MatchScore(text, BreathingEntry.keywords) == 0
    requires MatchScore(text, SeizureEntry.keywords) == 0
    requires MatchScore(text, BleedingEntry.keywords) == 0
    requires Collect(Conditions, text, 4) == rest
    ensures Collect(Conditions, text, 0) == [Match(MatchScore(text, HeartEntry.keywords), 0, HeartEntry)] + rest
  {
    assert |Conditions| == 16;
    EntriesFrom0();
    CollectStep(Conditions, text, 3);
    CollectStep(Conditions, text, 2);
    CollectStep(Conditions, text, 1);
    CollectStep(Conditions, text, 0);
  }

  /** Of the first four entries only the seizure entry scores: it heads the list. */
  lemma CollectSeizureFrom0(text: string, rest: seq<Match>)
    requires MatchScore(text, HeartEntry.keywords) == 0
    requires MatchScore(text, BreathingEntry.keywords) == 0
    requires MatchScore(text, SeizureEntry.keywords) > 0
    requires MatchScore(text, BleedingEntry.keywords) == 0
    requires Collect(Conditions, text, 4) == rest
    ensures Collect(Conditions, text, 0) == [Match(MatchScore(text, SeizureEntry.keywords), 2, SeizureEntry)] + rest
  {
    assert |Conditions| == 16;
    EntriesFrom0();
    CollectStep(Conditions, text, 3);
    CollectStep(Conditions, text, 2);
    CollectStep(Conditions, text, 1);
    CollectStep(Conditions, text, 0);
  }

  // ---------------------------------------------------------------------
  // "Chest-pain!"
  // ---------------------------------------------------------------------

  lemma ChestPainCollectedFrom8()
    ensures Collect(Conditions, "chest pain", 8) == []
  {
    ArmPainScores();
    JointPainScores();
    BackPainScores();
    MenstrualScores();
    CollectNoneFrom12("chest pain");
    EarScores();
    EyeScores();
    BurpingScores();
    LegPainScores();
    CollectNoneFrom8("chest pain");
  }

  lemma ChestPainCollectedFrom4()
    ensures Collect(Conditions, "chest pain", 4) == []
  {
    ChestPainCollectedFrom8();
    ViralScores();
    StomachScores();
    FoodPoisoningScores();
    UtiScores();
    CollectNoneFrom4("chest pain");
  }

  /** On "chest pain" the scoring loop collects the heart entry alone, with 3
      for the phrase "chest pain". */
  lemma ChestPainCollected()
    ensures Collect(Conditions, "chest pain", 0) == [Match(3, 0, HeartEntry)]
  {
    ChestPainCollectedFrom4();
    HeartScores();
    BreathingScores();
    SeizureScores();
    BleedingScores();
    CollectHeartFrom0("chest pain", []);
  }

  lemma ChestPainAnalyzed()
    ensures AnalyzeText(Conditions, "chest pain") == Report(HeartEntry, [Match(3, 0, HeartEntry)])
  {
    CatalogSeveritiesRanked();
    ChestPainCollected();
    OneCollectedReported(Conditions, "chest pain", Match(3, 0, HeartEntry));
  }

  lemma HeartReported()
    ensures var r := Report(HeartEntry, [Match(3, 0, HeartEntry)]);
      && r.conditionId == Some("heart")
      && r.severity == "High"
      && r.condition == "Possible Heart Issue"
      && r.possibleConditions == ["Possible Heart Issue"]
      && r.doctor == Some("Cardiologist")
  {
    assert Names([Match(3, 0, HeartEntry)]) == [HeartEntry.name];
  }

  /** Chest pain, written with punctuation, is reported as a possible heart
      issue at severity High, with a cardiologist as the doctor and itself as
      the only candidate. */
  lemma ChestPainReportsHeart()
    ensures var r := AnalyzeSymptoms("Chest-pain!");
      && r.conditionId == Some("heart")
      && r.severity == "High"
      && r.condition == "Possible Heart Issue"
      && r.possibleConditions == ["Possible Heart Issue"]
      && r.doctor == Some("Cardiologist")
  {
    NormalizeExamples.PunctuationBecomesSpaceExample();
    ChestPainAnalyzed();
    HeartReported();
  }

  // ---------------------------------------------------------------------
  // "stomach pain fits"
  // ---------------------------------------------------------------------

  lemma StomachPainFitsCollectedFrom8()
    ensures Collect(Conditions, "stomach pain fits", 8) == []
  {
    ArmPainScores();
    JointPainScores();
    BackPainScores();
    MenstrualScores();
    CollectNoneFrom12("stomach pain fits");
    EarScores();
    EyeScores();
    BurpingScores();
    LegPainScores();
    CollectNoneFrom8("stomach pain fits");
  }

  lemma StomachPainFitsCollectedFrom4()
    ensures Collect(Conditions, "stomach pain fits", 4) == [Match(3, 5, StomachEntry)]
  {
    StomachPainFitsCollectedFrom8();
    ViralScores();
    StomachScores();
    FoodPoisoningScores();
    UtiScores();
    CollectStomachFrom4("stomach pain fits");
  }

  /** On "stomach pain fits" the scoring loop collects the seizure entry
      with 2, for the word "fits", and then the stomach entry with 3, for the
      phrase "stomach pain". */
  lemma StomachPainFitsCollected()
    ensures Collect(Conditions, "stomach pain fits", 0) == [Match(2, 2, SeizureEntry)] + [Match(3, 5, StomachEntry)]
  {
    StomachPainFitsCollectedFrom4();
    HeartScores();
    BreathingScores();
    SeizureScores();
    BleedingScores();
    CollectSeizureFrom0("stomach pain fits", [Match(3, 5, StomachEntry)]);
  }

  lemma StomachPainFitsAnalyzed()
    ensures AnalyzeText(Conditions, "stomach pain fits") == Report(SeizureEntry, [Match(3, 5, StomachEntry), Match(2, 2, SeizureEntry)])
  {
    CatalogSeveritiesRanked();
    StomachPainFitsCollected();
    var ma, mb := Match(2, 2, SeizureEntry), Match(3, 5, StomachEntry);
    assert [ma] + [mb] == [ma, mb];
    SeverityOverridesCollected(Conditions, "stomach pain fits", ma, mb);
  }

  lemma SeizureReported()
    ensures var r := Report(SeizureEntry, [Match(3, 5, StomachEntry), Match(2, 2, SeizureEntry)]);
      && r.conditionId == Some("seizure")
      && r.severity == "High"
      && r.doctor == Some("Neurologist")
      && r.possibleConditions == ["Stomach Infection / Gastric Issue", "Seizure Episode"]
  {
    assert Names([Match(3, 5, StomachEntry), Match(2, 2, SeizureEntry)]) == [StomachEntry.name, SeizureEntry.name];
  }

  /** "stomach pain" gives the stomach entry 3 and "fits" gives the seizure
      entry 2: the seizure entry is reported because it is High, and the
      stomach entry, with the higher score, is listed first. */
  lemma SeizureOutranksStomach()
    ensures var r := AnalyzeSymptoms("stomach pain fits");
      && r.conditionId == Some("seizure")
      && r.severity == "High"
      && r.doctor == Some("Neurologist")
      && r.possibleConditions == ["Stomach Infection / Gastric Issue", "Seizure Episode"]
  {
    StomachPainFitsIsNormal();
    PreprocessFixpoint("stomach pain fits");
    StomachPainFitsAnalyzed();
    SeizureReported();
  }
}
