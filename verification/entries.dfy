/** The records of the condition catalog and the severity ranking
    `SEVERITY_RANK` (rules.py:36), with what it means for a catalog to be
    well formed. */
module Entries {
  import opened Options

  /** The three kinds of follow-up question; a number question carries its
      inclusive bounds. */
  datatype QuestionKind = Choice | Number(min: int, max: int) | FreeText

  /** A follow-up question; its text is also the key of its answer. */
  datatype Question = Question(text: string, kind: QuestionKind)

  /** One catalog entry. `doctor` is optional in the source's records (read
      with a default), so it is optional here. */
  datatype Condition = Condition(
    id: string,
    name: string,
    severity: string,
    doctor: Option<string>,
    keywords: seq<string>,
    advice: string,
    followUp: seq<Question>)

  /** `SEVERITY_RANK`. */
  const SeverityRank: map<string, int> := map["High" := 3, "Medium" := 2, "Low" := 1]

  // ---------------------------------------------------------------------
  // Well-formedness
  // ---------------------------------------------------------------------

  /** No two entries share an id (the evaluator dispatches on it). */
  predicate UniqueIds(cat: seq<Condition>)
  {
    forall i, j | 0 <= i < j < |cat| :: cat[i].id != cat[j].id
  }

  /** Every severity can be looked up in `SEVERITY_RANK`. */
  predicate SeveritiesRanked(cat: seq<Condition>)
  {
    forall i | 0 <= i < |cat| :: cat[i].severity in SeverityRank
  }

  /** Answers are keyed by question text, so the texts of one entry differ. */
  predicate UniqueQuestionTexts(c: Condition)
  {
    forall i, j | 0 <= i < j < |c.followUp| :: c.followUp[i].text != c.followUp[j].text
  }

  /** A number question's range is not empty: its default answer, the
      minimum, is within it. */
  predicate BoundsOrdered(c: Condition)
  {
    forall i | 0 <= i < |c.followUp| :: c.followUp[i].kind.Number? ==> c.followUp[i].kind.min <= c.followUp[i].kind.max
  }

  predicate WellFormed(cat: seq<Condition>)
  {
    && UniqueIds(cat)
    && SeveritiesRanked(cat)
    && (forall i | 0 <= i < |cat| :: UniqueQuestionTexts(cat[i]) && BoundsOrdered(cat[i]))
  }
}
