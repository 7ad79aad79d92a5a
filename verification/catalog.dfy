/** The condition catalog `CONDITIONS` (rules.py:42-252): the static
    knowledge base the matcher scores against and the follow-up evaluator
    refers to, and the proof that it is well formed. */
module Catalog {
  import opened Options
  import opened Entries

  // One constant per entry of `CONDITIONS`, in catalog order.

  const HeartEntry: Condition :=
    Condition(
      id := "heart",
      name := "Possible Heart Issue",
      severity := "High",
      doctor := Some("Cardiologist"),
      keywords := ["chest pain", "pressure in chest", "tightness in chest", "pain in chest", "heart pain"],
      advice := "Seek emergency medical help immediately. Do not ignore chest pain.",
      followUp := [
          Question("Is the chest pain severe and lasting more than 5 minutes?", Choice),
          Question("Do you also have sweating, dizziness, or pain spreading to arm/jaw?", Choice)
        ])

  const BreathingEntry: Condition :=
    Condition(
      id := "breathing",
      name := "Serious Breathing Issue",
      severity := "High",
      doctor := Some("Pulmonologist"),
      keywords := ["shortness of breath", "difficulty breathing", "breathlessness", "cant breathe", "breathing problem", "breathless"],
      advice := "Seek medical attention immediately. Breathing difficulty can be dangerous.",
      followUp := [
          Question("Is it sudden and worsening quickly?", Choice),
          Question("Do you feel chest tightness or wheezing?", Choice)
        ])

  const SeizureEntry: Condition :=
    Condition(
      id := "seizure",
      name := "Seizure Episode",
      severity := "High",
      doctor := Some("Neurologist"),
      keywords := ["seizure", "fits", "convulsions"],
      advice := "Seek urgent medical help.",
      followUp := [
          Question("Did the person lose consciousness?", Choice),
          Question("How many minutes did the episode last?", Number(0, 30))
        ])

  const BleedingEntry: Condition :=
    Condition(
      id := "bleeding",
      name := "Severe Bleeding",
      severity := "High",
      doctor := Some("Emergency Medicine"),
      keywords := ["heavy bleeding", "severe bleeding", "blood loss", "bleeding a lot"],
      advice := "Apply pressure to the wound and seek emergency help immediately.",
      followUp := [
          Question("Is the bleeding not stopping even after applying pressure?", Choice),
          Question("Is the person feeling dizzy or weak?", Choice)
        ])

  const ViralEntry: Condition :=
    Condition(
      id := "viral",
      name := "Viral Fever (Possible Infection)",
      severity := "Medium",
      doctor := Some("General Physician"),
      keywords := ["fever", "high temperature", "body pain", "fatigue", "weakness", "headache"],
      advice := "Rest, drink fluids, and monitor temperature. Consult a doctor if fever lasts >2 days.",
      followUp := [
          Question("How many days have you had fever?", Number(0, 14)),
          Question("Do you also have sore throat, cough, or chills?", Choice)
        ])

  const StomachEntry: Condition :=
    Condition(
      id := "stomach",
      name := "Stomach Infection / Gastric Issue",
      severity := "Medium",
      doctor := Some("Gastroenterologist"),
      keywords := ["stomach pain", "abdominal pain", "stomach ache", "belly pain", "cramps"],
      advice := "Eat light food and drink ORS.",
      followUp := [
          Question("Do you have vomiting or loose motions along with stomach pain?", Choice),
          Question("Rate your stomach pain from 1 to 10", Number(1, 10))
        ])

  const FoodPoisoningEntry: Condition :=
    Condition(
      id := "food_poisoning",
      name := "Food Poisoning / Diarrhea",
      severity := "Medium",
      doctor := Some("Gastroenterologist"),
      keywords := ["vomiting", "nausea", "diarrhea", "loose motions", "watery stools"],
      advice := "ORS and hydration are essential.",
      followUp := [
          Question("How many times today?", Number(0, 25)),
          Question("Are you able to drink fluids?", Choice)
        ])

  const UtiEntry: Condition :=
    Condition(
      id := "uti",
      name := "Urinary Tract Infection",
      severity := "Medium",
      doctor := Some("Urologist"),
      keywords := ["burning urination", "frequent urination", "uti"],
      advice := "Drink water and consult a doctor.",
      followUp := [
          Question("Do you have fever or back pain?", Choice),
          Question("How many days has this continued?", Number(0, 30))
        ])

  const EarEntry: Condition :=
    Condition(
      id := "ear",
      name := "Ear Pain / Infection",
      severity := "Medium",
      doctor := Some("ENT Specialist"),
      keywords := ["ear pain", "ear ache", "ear infection"],
      advice := "Avoid water in ear and consult ENT.",
      followUp := [
          Question("Is there ear discharge?", Choice),
          Question("Is hearing reduced?", Choice)
        ])

  const EyeEntry: Condition :=
    Condition(
      id := "eye",
      name := "Eye Irritation / Watery Eyes",
      severity := "Low",
      doctor := Some("Ophthalmologist"),
      keywords := ["watery eyes", "eye irritation", "red eyes", "eye pain"],
      advice := "Avoid rubbing eyes and use clean water.",
      followUp := [
          Question("Is there redness or itching?", Choice)
        ])

  const BurpingEntry: Condition :=
    Condition(
      id := "burping",
      name := "Frequent Burping / Gas",
      severity := "Low",
      doctor := Some("Gastroenterologist"),
      keywords := ["burping", "gas", "bloating", "belching"],
      advice := "Avoid carbonated drinks and eat slowly.",
      followUp := [
          Question("Does it worsen after meals?", Choice)
        ])

  const LegPainEntry: Condition :=
    Condition(
      id := "leg_pain",
      name := "Leg Pain / Muscle Strain",
      severity := "Low",
      doctor := Some("Orthopedic"),
      keywords := ["leg pain", "calf pain", "thigh pain"],
      advice := "Rest and gentle stretching.",
      followUp := [
          Question("Did pain start after physical activity?", Choice)
        ])

  const ArmPainEntry: Condition :=
    Condition(
      id := "arm_pain",
      name := "Arm Pain / Muscle Strain",
      severity := "Low",
      doctor := Some("Orthopedic"),
      keywords := ["arm pain", "shoulder pain", "elbow pain"],
      advice := "Avoid strain and rest.",
      followUp := [
          Question("Is movement painful?", Choice)
        ])

  const JointPainEntry: Condition :=
    Condition(
      id := "joint_pain",
      name := "Joint Pain",
      severity := "Low",
      doctor := Some("Orthopedic / Rheumatologist"),
      keywords := ["joint pain", "knee pain", "shoulder joint pain"],
      advice := "Warm compress and rest.",
      followUp := [
          Question("Is joint swelling present?", Choice)
        ])

  const BackPainEntry: Condition :=
    Condition(
      id := "back_pain",
      name := "Back Pain",
      severity := "Low",
      doctor := Some("Orthopedic"),
      keywords := ["back pain", "lower back pain", "spine pain"],
      advice := "Correct posture and rest.",
      followUp := [
          Question("Does pain increase on bending?", Choice)
        ])

  const MenstrualEntry: Condition :=
    Condition(
      id := "menstrual",
      name := "Menstrual Cramps",
      severity := "Low",
      doctor := Some("Gynecologist"),
      keywords := ["period pain", "menstrual cramps", "period cramps"],
      advice := "Warm compress and rest help.",
      followUp := [
          Question("Is pain severe enough to stop daily activity?", Choice)
        ])

  /** `CONDITIONS`, in catalog order. */
  const Conditions: seq<Condition> := [
    HeartEntry, BreathingEntry, SeizureEntry, BleedingEntry,
    ViralEntry, StomachEntry, FoodPoisoningEntry, UtiEntry,
    EarEntry, EyeEntry, BurpingEntry, LegPainEntry,
    ArmPainEntry, JointPainEntry, BackPainEntry, MenstrualEntry
  ]

  /** The catalog's ids, in catalog order. */
  const CatalogIds: seq<string> := [
    "heart", "breathing", "seizure", "bleeding", "viral", "stomach", "food_poisoning", "uti",
    "ear", "eye", "burping", "leg_pain", "arm_pain", "joint_pain", "back_pain", "menstrual"]

  lemma CatalogIdsInOrder()
    ensures |Conditions| == |CatalogIds|
    ensures forall i | 0 <= i < |Conditions| :: Conditions[i].id == CatalogIds[i]
  {
  }

  lemma CatalogIdsDistinct()
    ensures forall i, j | 0 <= i < j < |CatalogIds| :: CatalogIds[i] != CatalogIds[j]
  {
  }

  lemma CatalogUniqueIds()
    ensures UniqueIds(Conditions)
  {
    CatalogIdsInOrder();
    CatalogIdsDistinct();
  }

  lemma CatalogSeveritiesRanked()
    ensures SeveritiesRanked(Conditions)
  {
  }

  lemma CatalogQuestionTextsUnique()
    ensures forall i | 0 <= i < |Conditions| :: UniqueQuestionTexts(Conditions[i])
  {
  }

  lemma CatalogBoundsOrdered()
    ensures forall i | 0 <= i < |Conditions| :: BoundsOrdered(Conditions[i])
  {
  }

  lemma CatalogQuestionsWellFormed()
    ensures forall i | 0 <= i < |Conditions| :: UniqueQuestionTexts(Conditions[i])
    ensures forall i | 0 <= i < |Conditions| :: BoundsOrdered(Conditions[i])
  {
    CatalogQuestionTextsUnique();
    CatalogBoundsOrdered();
  }

  /** The catalog is well formed: distinct ids, ranked severities, distinct
      question texts within each entry, and ordered number bounds. */
  lemma CatalogWellFormed()
    ensures WellFormed(Conditions)
  {
    CatalogUniqueIds();
    CatalogSeveritiesRanked();
    CatalogQuestionsWellFormed();
  }
}
