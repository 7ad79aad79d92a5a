/** The symptom matcher `analyze_symptoms` (rules.py:258-301): score every
    catalog entry against the normalised text, keep those above 0 in catalog
    order, stable-sort them by descending score, keep the top three, and
    report the first of those whose severity rank is the highest. */
module Matcher {
  import opened Options
  import opened Normalize
  import opened Scoring
  import opened Entries

  /** A catalog entry that scored above 0: the `(score, item)` pair of the
      source, plus the entry's catalog position, which the stable sort keeps
      as the tie-break. */
  datatype Match = Match(score: nat, index: nat, cond: Condition)

  /** The dictionary `analyze_symptoms` returns. `doctor` is `None` when the
      dictionary has no "doctor" key. */
  datatype Analysis = Analysis(
    condition: string,
    severity: string,
    advice: string,
    possibleConditions: seq<string>,
    followUpQuestions: seq<Question>,
    conditionId: Option<string>,
    doctor: Option<string>)

  /** The doctor reported for an entry that names none. */
  const DefaultDoctor: string := "General Physician"

  /** The result when nothing scored (rules.py:269-276); it has no doctor. */
  const Unidentified: Analysis := Analysis(
    "Unidentified Symptoms",
    "Low",
    "Monitor your symptoms. If they persist or worsen, consult a healthcare professional.",
    [], [], None, None)

  function Min(a: int, b: int): (r: int) { if a <= b then a else b }

  /** `m` is the score of catalog entry `m.index` on `text`, and it is positive. */
  predicate Faithful(cat: seq<Condition>, text: string, m: Match)
  {
    && m.index < |cat|
    && m.cond == cat[m.index]
    && m.score == MatchScore(text, cat[m.index].keywords)
    && m.score > 0
  }

  /** `a` comes before `b` in the stable descending order: a higher score,
      or the same score and an earlier catalog position. */
  predicate Before(a: Match, b: Match)
  {
    a.score > b.score || (a.score == b.score && a.index < b.index)
  }

  predicate Ranked(ms: seq<Match>)
  {
    forall p, q | 0 <= p < q < |ms| :: Before(ms[p], ms[q])
  }

  predicate InCatalogOrder(ms: seq<Match>)
  {
    forall p, q | 0 <= p < q < |ms| :: ms[p].index < ms[q].index
  }

  function Rank(m: Match): (r: int)
    requires m.cond.severity in SeverityRank
  {
    SeverityRank[m.cond.severity]
  }

  // ---------------------------------------------------------------------
  // Step 1: score every entry, keep the positive ones in catalog order
  // ---------------------------------------------------------------------

  /** The scoring loop (rules.py:261-265), from catalog position `i` on. */
  function Collect(cat: seq<Condition>, text: string, i: nat): (ms: seq<Match>)
    requires i <= |cat|
    ensures forall p | 0 <= p < |ms| :: Faithful(cat, text, ms[p]) && i <= ms[p].index
    ensures InCatalogOrder(ms)
    decreases |cat| - i
  {
    if i == |cat| then []
    else
      var rest := Collect(cat, text, i + 1);
      var s := MatchScore(text, cat[i].keywords);
      if s > 0 then [Match(s, i, cat[i])] + rest else rest
  }

  /** One step of the scoring loop. */
  lemma CollectStep(cat: seq<Condition>, text: string, i: nat)
    requires i < |cat|
    ensures var s := MatchScore(text, cat[i].keywords);
      Collect(cat, text, i) == if s > 0 then [Match(s, i, cat[i])] + Collect(cat, text, i + 1) else Collect(cat, text, i + 1)
  {
  }

  /** Every entry that scores above 0 is collected; `p` is its position. */
  lemma {:induction false} CollectComplete(cat: seq<Condition>, text: string, i: nat, j: nat) returns (p: nat)
    requires i <= j < |cat| && MatchScore(text, cat[j].keywords) > 0
    ensures p < |Collect(cat, text, i)| && Collect(cat, text, i)[p].index == j
    decreases |cat| - i
  {
    var ms := Collect(cat, text, i);
    CollectStep(cat, text, i);
    if j == i {
      p := 0;
    } else {
      var rest := Collect(cat, text, i + 1);
      var p' := CollectComplete(cat, text, i + 1, j);
      if MatchScore(text, cat[i].keywords) > 0 {
        p := p' + 1;
        assert ms[p] == rest[p'];
      } else {
        p := p';
      }
    }
  }

  // ---------------------------------------------------------------------
  // Step 3: the stable sort by descending score
  // ---------------------------------------------------------------------

  /** Inserts `x` in front of the first element it does not score below. */
  function Insert(x: Match, ys: seq<Match>): (r: seq<Match>)
    ensures multiset(r) == multiset(ys) + multiset{x}
    ensures |r| == |ys| + 1
  {
    if ys == [] || x.score >= ys[0].score then [x] + ys
    else
      assert ys == [ys[0]] + ys[1..];
      [ys[0]] + Insert(x, ys[1..])
  }

  /** Whatever comes before `x` and every element of `ys` comes before every
      element of `Insert(x, ys)`. */
  lemma {:induction false} InsertKeepsBound(y: Match, x: Match, ys: seq<Match>)
    requires Before(y, x)
    requires forall q | 0 <= q < |ys| :: Before(y, ys[q])
    ensures forall q | 0 <= q < |Insert(x, ys)| :: Before(y, Insert(x, ys)[q])
    decreases |ys|
  {
    if !(ys == [] || x.score >= ys[0].score) {
      InsertKeepsBound(y, x, ys[1..]);
      var r := Insert(x, ys);
      assert forall q | 1 <= q < |r| :: r[q] == Insert(x, ys[1..])[q - 1];
    }
  }

  lemma {:induction false} InsertRanked(x: Match, ys: seq<Match>)
    requires Ranked(ys)
    requires forall p | 0 <= p < |ys| :: x.index < ys[p].index
    ensures Ranked(Insert(x, ys))
    decreases |ys|
  {
    if ys == [] || x.score >= ys[0].score {
      var r := [x] + ys;
      assert forall q | 1 <= q < |r| :: r[q] == ys[q - 1];
    } else {
      var tail := ys[1..];
      InsertRanked(x, tail);
      var t := Insert(x, tail);
      var r := [ys[0]] + t;
      assert forall q | 0 <= q < |tail| :: tail[q] == ys[q + 1];
      InsertKeepsBound(ys[0], x, tail);
      assert forall q | 1 <= q < |r| :: r[q] == t[q - 1];
    }
  }

  /** `scored.sort(key=lambda x: x[0], reverse=True)`: insertion sort, each
      element going in front of every later element with the same score. */
  function SortByScore(ms: seq<Match>): (r: seq<Match>)
    ensures multiset(r) == multiset(ms)
    ensures |r| == |ms|
  {
    if ms == [] then []
    else
      assert ms == [ms[0]] + ms[1..];
      Insert(ms[0], SortByScore(ms[1..]))
  }

  /** Sorting entries collected in catalog order ranks them by descending
      score and, within one score, by catalog order: Python's sort is stable
      even with `reverse=True`. */
  lemma {:induction false} SortByScoreRanked(ms: seq<Match>)
    requires InCatalogOrder(ms)
    ensures Ranked(SortByScore(ms))
    decreases |ms|
  {
    if ms != [] {
      var tail := ms[1..];
      SortByScoreRanked(tail);
      var sortedTail := SortByScore(tail);
      forall p | 0 <= p < |sortedTail|
        ensures ms[0].index < sortedTail[p].index
      {
        assert sortedTail[p] in multiset(tail);
        var q :| 0 <= q < |tail| && tail[q] == sortedTail[p];
        assert tail[q] == ms[q + 1];
      }
      InsertRanked(ms[0], sortedTail);
    }
  }
  // ---------------------------------------------------------------------
  // Steps 4-5: the top three, and the most severe of them
  // ---------------------------------------------------------------------

  /** The loop of rules.py:285-288 from position `i` on, with `k` the
      position chosen so far: a later match replaces it only when its
      severity rank is strictly greater. The result is the first position of
      the highest rank. */
  function MostSevere(top: seq<Match>, i: nat, k: nat): (r: nat)
    requires forall p | 0 <= p < |top| :: top[p].cond.severity in SeverityRank
    requires k < |top| && i <= |top|
    requires forall p | 0 <= p < i :: Rank(top[p]) <= Rank(top[k])
    requires forall p | 0 <= p < k :: Rank(top[p]) < Rank(top[k])
    ensures r < |top|
    ensures forall p | 0 <= p < |top| :: Rank(top[p]) <= Rank(top[r])
    ensures forall p | 0 <= p < r :: Rank(top[p]) < Rank(top[r])
    decreases |top| - i
  {
    if i == |top| then k
    else MostSevere(top, i + 1, if Rank(top[i]) > Rank(top[k]) then i else k)
  }

  /** Sorting keeps every element faithful: it only permutes. */
  lemma SortFaithful(cat: seq<Condition>, text: string, ms: seq<Match>)
    requires forall p | 0 <= p < |ms| :: Faithful(cat, text, ms[p])
    ensures forall p | 0 <= p < |SortByScore(ms)| :: Faithful(cat, text, SortByScore(ms)[p])
  {
    var ranked := SortByScore(ms);
    forall p | 0 <= p < |ranked|
      ensures Faithful(cat, text, ranked[p])
    {
      assert ranked[p] in multiset(ms);
      var q :| 0 <= q < |ms| && ms[q] == ranked[p];
    }
  }

  /** `scored[:3]` after the sort, on already normalised text: at most three
      real scores of catalog entries, ranked by descending score and then by
      catalog order. */
  function TopMatches(cat: seq<Condition>, text: string): (top: seq<Match>)
    ensures |top| == Min(3, |Collect(cat, text, 0)|)
    ensures forall p | 0 <= p < |top| :: Faithful(cat, text, top[p])
    ensures Ranked(top)
  {
    var scored := Collect(cat, text, 0);
    SortByScoreRanked(scored);
    SortFaithful(cat, text, scored);
    var ranked := SortByScore(scored);
    ranked[..Min(3, |ranked|)]
  }

  function Names(top: seq<Match>): (names: seq<string>)
    ensures |names| == |top|
    ensures forall p | 0 <= p < |top| :: names[p] == top[p].cond.name
  {
    seq(|top|, p requires 0 <= p < |top| => top[p].cond.name)
  }

  /** The dictionary built from the chosen entry (rules.py:290-300). */
  function Report(chosen: Condition, top: seq<Match>): (r: Analysis)
  {
    Analysis(
      chosen.name,
      chosen.severity,
      chosen.advice,
      Names(top),
      chosen.followUp,
      Some(chosen.id),
      Some(chosen.doctor.GetOr(DefaultDoctor)))
  }

  /** `analyze_symptoms` from the normalisation on (rules.py:261-301). */
  function AnalyzeText(cat: seq<Condition>, text: string): (r: Analysis)
    requires SeveritiesRanked(cat)
    ensures |r.possibleConditions| <= 3
    ensures r.conditionId.None? <==> r.possibleConditions == []
  {
    var scored := Collect(cat, text, 0);
    if scored == [] then Unidentified
    else
      var top := TopMatches(cat, text);
      Report(top[MostSevere(top, 0, 0)].cond, top)
  }

  /** `analyze_symptoms(user_text)` over the catalog `cat`. */
  function Analyze(cat: seq<Condition>, userText: string): (r: Analysis)
    requires SeveritiesRanked(cat)
  {
    AnalyzeText(cat, Preprocess(userText))
  }

  // ---------------------------------------------------------------------
  // What the result promises
  // ---------------------------------------------------------------------

  /** The sentinel is returned exactly when no catalog entry scores above 0
      on the text; it reports "Unidentified Symptoms" at severity Low, with
      no candidates, no questions, no id and no doctor. */
  lemma AnalyzeTextNoMatch(cat: seq<Condition>, text: string)
    requires SeveritiesRanked(cat)
    ensures var r := AnalyzeText(cat, text);
      && (r.conditionId.None? <==> forall i | 0 <= i < |cat| :: MatchScore(text, cat[i].keywords) == 0)
      && (r.conditionId.None? ==>
            && r.condition == "Unidentified Symptoms"
            && r.severity == "Low"
            && r.possibleConditions == []
            && r.followUpQuestions == []
            && r.doctor.None?)
  {
    var scored := Collect(cat, text, 0);
    if scored == [] {
      forall i | 0 <= i < |cat|
        ensures MatchScore(text, cat[i].keywords) == 0
      {
        if MatchScore(text, cat[i].keywords) > 0 {
          var p := CollectComplete(cat, text, 0, i);
        }
      }
    } else {
      assert Faithful(cat, text, scored[0]);
    }
  }

  /** The same for `analyze_symptoms` on the raw input: the sentinel comes
      back exactly when no entry scores on the normalised text. */
  lemma AnalyzeNoMatch(cat: seq<Condition>, userText: string)
    requires SeveritiesRanked(cat)
    ensures var r := Analyze(cat, userText);
      && (r.conditionId.None? <==> forall i | 0 <= i < |cat| :: MatchScore(Preprocess(userText), cat[i].keywords) == 0)
      && (r.conditionId.None? ==>
            && r.condition == "Unidentified Symptoms"
            && r.severity == "Low"
            && r.possibleConditions == []
            && r.followUpQuestions == []
            && r.doctor.None?)
  {
    AnalyzeTextNoMatch(cat, Preprocess(userText));
  }

  /** No entry left out of the top matches beats a listed one: every entry
      that scores above 0 is listed, or three entries are listed and each of
      them comes before it (a higher score, or the same score and an earlier
      catalog position). */
  lemma TopMatchesComplete(cat: seq<Condition>, text: string, j: nat)
    requires j < |cat| && MatchScore(text, cat[j].keywords) > 0
    ensures var top := TopMatches(cat, text);
      || (exists p | 0 <= p < |top| :: top[p].index == j)
      || (|top| == 3 && forall p | 0 <= p < 3 :: Before(top[p], Match(MatchScore(text, cat[j].keywords), j, cat[j])))
  {
    var scored := Collect(cat, text, 0);
    var ranked := SortByScore(scored);
    var top := TopMatches(cat, text);
    var q := RankedPosition(cat, text, j);
    SortByScoreRanked(scored);
    if q < 3 {
      assert top[q] == ranked[q];
    } else {
      RankedPrefixBeats(ranked, q);
      assert forall p | 0 <= p < 3 :: top[p] == ranked[p];
    }
  }

  /** The position of a positively scoring entry in the sorted list. */
  lemma RankedPosition(cat: seq<Condition>, text: string, j: nat) returns (q: nat)
    requires j < |cat| && MatchScore(text, cat[j].keywords) > 0
    ensures q < |SortByScore(Collect(cat, text, 0))|
    ensures SortByScore(Collect(cat, text, 0))[q] == Match(MatchScore(text, cat[j].keywords), j, cat[j])
  {
    var scored := Collect(cat, text, 0);
    var ranked := SortByScore(scored);
    var p0 := CollectComplete(cat, text, 0, j);
    assert Faithful(cat, text, scored[p0]);
    assert scored[p0] in multiset(ranked);
    q :| 0 <= q < |ranked| && ranked[q] == scored[p0];
  }

  /** In a ranked list, each of the first three comes before any later element. */
  lemma RankedPrefixBeats(ranked: seq<Match>, q: nat)
    requires Ranked(ranked) && 3 <= q < |ranked|
    ensures forall p | 0 <= p < 3 :: Before(ranked[p], ranked[q])
  {
  }

  /** `r` reports top match `k`: every field comes from that entry, the
      doctor defaulting to "General Physician", and the reported name is one
      of the candidates. */
  predicate ReportsEntry(r: Analysis, top: seq<Match>, k: nat)
    requires k < |top|
  {
    && r.condition == top[k].cond.name
    && r.condition in r.possibleConditions
    && r.severity == top[k].cond.severity
    && r.advice == top[k].cond.advice
    && r.followUpQuestions == top[k].cond.followUp
    && r.conditionId == Some(top[k].cond.id)
    && r.doctor == Some(top[k].cond.doctor.GetOr("General Physician"))
  }

  /** Top match `k` is the first of the highest severity rank among `top`. */
  predicate FirstMostSevere(top: seq<Match>, k: nat)
    requires forall p | 0 <= p < |top| :: top[p].cond.severity in SeverityRank
    requires k < |top|
  {
    && (forall p | 0 <= p < |top| :: Rank(top[p]) <= Rank(top[k]))
    && (forall p | 0 <= p < k :: Rank(top[p]) < Rank(top[k]))
  }

  /** With some entry scoring, the analysis is the report of the most severe
      top match. */
  lemma AnalyzeTextReports(cat: seq<Condition>, text: string) returns (k: nat)
    requires SeveritiesRanked(cat)
    requires Collect(cat, text, 0) != []
    ensures var top := TopMatches(cat, text);
      && 1 <= |top| <= 3
      && k < |top|
      && FirstMostSevere(top, k)
      && AnalyzeText(cat, text) == Report(top[k].cond, top)
  {
    var top := TopMatches(cat, text);
    k := MostSevere(top, 0, 0);
  }

  lemma ReportReportsEntry(top: seq<Match>, k: nat)
    requires k < |top|
    ensures Report(top[k].cond, top).possibleConditions == Names(top)
    ensures ReportsEntry(Report(top[k].cond, top), top, k)
  {
    assert Names(top)[k] == top[k].cond.name;
  }

  /** When something matches: one to three candidates, named in ranked
      order; the reported entry is the first top match whose severity rank is
      the highest among them, so severity beats score; every reported field
      comes from that entry, with "General Physician" when it names no
      doctor. */
  lemma AnalyzeMatched(cat: seq<Condition>, text: string)
    requires SeveritiesRanked(cat)
    requires exists i | 0 <= i < |cat| :: MatchScore(text, cat[i].keywords) > 0
    ensures var top := TopMatches(cat, text);
      var r := AnalyzeText(cat, text);
      && 1 <= |top| <= 3
      && r.possibleConditions == Names(top)
      && exists k | 0 <= k < |top| :: FirstMostSevere(top, k) && ReportsEntry(r, top, k)
  {
    var i :| 0 <= i < |cat| && MatchScore(text, cat[i].keywords) > 0;
    var p := CollectComplete(cat, text, 0, i);
    var top := TopMatches(cat, text);
    var k := AnalyzeTextReports(cat, text);
    ReportReportsEntry(top, k);
  }

  // ---------------------------------------------------------------------
  // One or two entries scoring
  // ---------------------------------------------------------------------

  /** The collected list when entry `j` is the only one scoring above 0. */
  lemma CollectOnly(cat: seq<Condition>, text: string, j: nat)
    requires j < |cat|
    requires forall i | 0 <= i < |cat| :: MatchScore(text, cat[i].keywords) > 0 <==> i == j
    ensures Collect(cat, text, 0) == [Match(MatchScore(text, cat[j].keywords), j, cat[j])]
  {
    var scored := Collect(cat, text, 0);
    var p := CollectComplete(cat, text, 0, j);
    assert forall q | 0 <= q < |scored| :: Faithful(cat, text, scored[q]);
    if |scored| > 1 {
      FirstTwoIncrease(scored);
      assert false;
    }
  }

  lemma FirstTwoIncrease(ms: seq<Match>)
    requires InCatalogOrder(ms) && |ms| > 1
    ensures ms[0].index < ms[1].index
  {
  }

  /** When the scoring loop collects a single entry, that entry is
      reported, as the only candidate. */
  lemma OneCollectedReported(cat: seq<Condition>, text: string, m: Match)
    requires SeveritiesRanked(cat)
    requires Collect(cat, text, 0) == [m]
    ensures AnalyzeText(cat, text) == Report(m.cond, [m])
  {
    var top := TopMatches(cat, text);
    assert SortByScore([m]) == [m];
    assert top == [m];
  }

  /** A single scoring entry is the one reported, as the only candidate. */
  lemma SingleMatchReported(cat: seq<Condition>, text: string, j: nat)
    requires SeveritiesRanked(cat)
    requires j < |cat|
    requires forall i | 0 <= i < |cat| :: MatchScore(text, cat[i].keywords) > 0 <==> i == j
    ensures AnalyzeText(cat, text) == Report(cat[j], [Match(MatchScore(text, cat[j].keywords), j, cat[j])])
  {
    CollectOnly(cat, text, j);
    OneCollectedReported(cat, text, Match(MatchScore(text, cat[j].keywords), j, cat[j]));
  }

  /** A list in catalog order whose positions are among two can hold at
      most two matches. */
  lemma InCatalogOrderOfTwo(ms: seq<Match>, a: nat, b: nat)
    requires InCatalogOrder(ms)
    requires forall p | 0 <= p < |ms| :: ms[p].index == a || ms[p].index == b
    ensures |ms| <= 2
  {
    if |ms| > 2 {
      FirstThreeIncrease(ms);
      assert false;
    }
  }

  lemma FirstThreeIncrease(ms: seq<Match>)
    requires InCatalogOrder(ms) && |ms| > 2
    ensures ms[0].index < ms[1].index < ms[2].index
  {
  }

  /** The collected list when entries `a < b` are the only ones scoring above 0. */
  lemma CollectTwo(cat: seq<Condition>, text: string, a: nat, b: nat)
    requires a < b < |cat|
    requires forall i | 0 <= i < |cat| :: MatchScore(text, cat[i].keywords) > 0 <==> i == a || i == b
    ensures Collect(cat, text, 0) == [Match(MatchScore(text, cat[a].keywords), a, cat[a]), Match(MatchScore(text, cat[b].keywords), b, cat[b])]
  {
    var scored := Collect(cat, text, 0);
    var pa := CollectComplete(cat, text, 0, a);
    var pb := CollectComplete(cat, text, 0, b);
    assert forall p | 0 <= p < |scored| :: Faithful(cat, text, scored[p]);
    InCatalogOrderOfTwo(scored, a, b);
    assert pa < pb;
    assert pa == 0 && pb == 1;
  }

  /** When the scoring loop collects exactly two entries, the one with the
      higher score is listed first, whatever their catalog order. */
  lemma TopOfCollectedTwo(cat: seq<Condition>, text: string, ma: Match, mb: Match)
    requires Collect(cat, text, 0) == [ma, mb] || Collect(cat, text, 0) == [mb, ma]
    requires ma.score < mb.score
    ensures TopMatches(cat, text) == [mb, ma]
  {
    SortTwo(ma, mb);
    var ranked := SortByScore(Collect(cat, text, 0));
    assert TopMatches(cat, text) == ranked[..2];
  }

  /** Two matches with different scores sort the same way from either order. */
  lemma SortTwo(ma: Match, mb: Match)
    requires ma.score < mb.score
    ensures SortByScore([ma, mb]) == [mb, ma]
    ensures SortByScore([mb, ma]) == [mb, ma]
  {
    assert [ma, mb][1..] == [mb] && [mb, ma][1..] == [ma];
    assert SortByScore([mb]) == [mb] && SortByScore([ma]) == [ma];
  }

  /** With exactly two entries scoring, the higher score is listed first. */
  lemma TopOfTwo(cat: seq<Condition>, text: string, a: nat, b: nat)
    requires a < |cat| && b < |cat| && a != b
    requires forall i | 0 <= i < |cat| :: MatchScore(text, cat[i].keywords) > 0 <==> i == a || i == b
    requires MatchScore(text, cat[a].keywords) < MatchScore(text, cat[b].keywords)
    ensures TopMatches(cat, text) == [Match(MatchScore(text, cat[b].keywords), b, cat[b]), Match(MatchScore(text, cat[a].keywords), a, cat[a])]
  {
    if a < b {
      CollectTwo(cat, text, a, b);
    } else {
      CollectTwo(cat, text, b, a);
    }
    TopOfCollectedTwo(cat, text, Match(MatchScore(text, cat[a].keywords), a, cat[a]), Match(MatchScore(text, cat[b].keywords), b, cat[b]));
  }

  /** Severity beats score: when the scoring loop collects exactly two
      entries, and the one with the lower score has the higher severity
      rank, it is the one reported, although it is listed second. */
  lemma SeverityOverridesCollected(cat: seq<Condition>, text: string, ma: Match, mb: Match)
    requires SeveritiesRanked(cat)
    requires Collect(cat, text, 0) == [ma, mb] || Collect(cat, text, 0) == [mb, ma]
    requires ma.score < mb.score
    requires ma.cond.severity in SeverityRank && mb.cond.severity in SeverityRank
    requires Rank(mb) < Rank(ma)
    ensures AnalyzeText(cat, text) == Report(ma.cond, [mb, ma])
  {
    assert Collect(cat, text, 0) != [];
    TopOfCollectedTwo(cat, text, ma, mb);
    MostSevereOfTwo(mb, ma);
  }

  /** Of two top matches, the second is chosen when it ranks strictly higher. */
  lemma MostSevereOfTwo(a: Match, b: Match)
    requires a.cond.severity in SeverityRank && b.cond.severity in SeverityRank
    requires Rank(a) < Rank(b)
    ensures MostSevere([a, b], 0, 0) == 1
  {
    var top := [a, b];
    var k := MostSevere(top, 0, 0);
    assert Rank(top[1]) > Rank(top[0]);
  }

  /** Severity beats score: when exactly two entries score, and the one with
      the lower score has the higher severity rank, it is the one reported,
      although it is listed second. */
  lemma SeverityOverridesScore(cat: seq<Condition>, text: string, a: nat, b: nat)
    requires SeveritiesRanked(cat)
    requires a < |cat| && b < |cat| && a != b
    requires forall i | 0 <= i < |cat| :: MatchScore(text, cat[i].keywords) > 0 <==> i == a || i == b
    requires MatchScore(text, cat[a].keywords) < MatchScore(text, cat[b].keywords)
    requires SeverityRank[cat[b].severity] < SeverityRank[cat[a].severity]
    ensures var ma, mb := Match(MatchScore(text, cat[a].keywords), a, cat[a]), Match(MatchScore(text, cat[b].keywords), b, cat[b]);
      AnalyzeText(cat, text) == Report(cat[a], [mb, ma])
  {
    var ma, mb := Match(MatchScore(text, cat[a].keywords), a, cat[a]), Match(MatchScore(text, cat[b].keywords), b, cat[b]);
    if a < b {
      CollectTwo(cat, text, a, b);
    } else {
      CollectTwo(cat, text, b, a);
    }
    SeverityOverridesCollected(cat, text, ma, mb);
  }
}
