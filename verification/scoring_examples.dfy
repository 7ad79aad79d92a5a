/** `keyword_match_score` on concrete inputs. */
module ScoringExamples {
  import opened Chars
  import opened Scoring

  lemma GasolineTokens()
    ensures IsToken("gasoline") && IsToken("issue") && IsToken("gas")
    ensures "gasoline" + " " + "issue" == "gasoline issue"
  {
  }

  lemma StomachGasTokens()
    ensures IsToken("stomach") && IsToken("gas")
    ensures "stomach" + " " + "gas" == "stomach gas"
  {
  }

  /** The token "gas" is not found inside "gasoline". */
  lemma GasolineExample()
    ensures KeywordScore("gasoline issue", "gas") == 0
  {
    GasolineTokens();
    TwoWordTokenScore("gasoline", "issue", "gas");
  }

  /** The token "gas" is found as a word of "stomach gas". */
  lemma StomachGasExample()
    ensures KeywordScore("stomach gas", "gas") == 2
  {
    StomachGasTokens();
    TwoWordTokenScore("stomach", "gas", "gas");
  }

  /** A phrase keyword needs its space: "heart pain" is not found in a text
      written without spaces. */
  lemma PhraseNeedsLiteralSpaceExample()
    ensures KeywordScore("severepainintheheartarea", "heart pain") == 0
  {
    var k := LowerStr("heart pain");
    assert k == "heart pain";
    assert k[5] == ' ';
    if Contains("severepainintheheartarea", k) {
      PhraseNeedsSpace("severepainintheheartarea", k);
      assert false;
    }
    PhraseNotFoundScoresZero("severepainintheheartarea", "heart pain");
  }
}
