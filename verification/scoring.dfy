/** Keyword scoring, `keyword_match_score` (rules.py:14-33). A keyword with a
    space that occurs in the text scores 3; any other keyword scores 2 when the
    regular expression `\b<keyword>\b` finds it, and 0 otherwise. A text's
    score is the sum over the keyword list, duplicates included. */
module Scoring {
  import opened Chars
  import opened Normalize

  /** `k` occurs in `text` starting at position `i`. */
  predicate OccursAt(text: string, k: string, i: int)
  {
    0 <= i && i + |k| <= |text| && text[i..i + |k|] == k
  }

  /** Python's `k in text`. */
  predicate Contains(text: string, k: string)
  {
    exists i | 0 <= i <= |text| - |k| :: OccursAt(text, k, i)
  }

  /** Python's `\b` at position `i`: exactly one of the characters on either
      side of `i` is a word character. */
  predicate AtBoundary(text: string, i: int)
    requires 0 <= i <= |text|
  {
    (i > 0 && IsWordChar(text[i - 1])) != (i < |text| && IsWordChar(text[i]))
  }

  /** `re.search(r"\b" + re.escape(k) + r"\b", text)` succeeds. */
  predicate WordMatch(text: string, k: string)
  {
    exists i | 0 <= i <= |text| - |k| ::
      OccursAt(text, k, i) && AtBoundary(text, i) && AtBoundary(text, i + |k|)
  }

  /** The points one keyword earns (the loop body, rules.py:22-31). */
  function KeywordScore(text: string, keyword: string): (r: nat)
  {
    var k := LowerStr(keyword);
    if ' ' in k && Contains(text, k) then 3
    else if WordMatch(text, k) then 2
    else 0
  }

  /** `keyword_match_score(text, keywords)`. */
  function MatchScore(text: string, keywords: seq<string>): (r: nat)
  {
    if keywords == [] then 0
    else KeywordScore(text, keywords[0]) + MatchScore(text, keywords[1..])
  }

  // ---------------------------------------------------------------------
  // One keyword
  // ---------------------------------------------------------------------

  /** A regular-expression hit is in particular a substring hit. */
  lemma WordMatchContains(text: string, k: string)
    requires WordMatch(text, k)
    ensures Contains(text, k)
  {
  }

  /** The three outcomes of one keyword, each stated by what the text holds:
      3 for a phrase found as a substring, 2 for a space-free keyword found
      between word boundaries, 0 otherwise. In particular a phrase that is not
      a substring falls to the `else` branch and earns nothing there. */
  lemma KeywordScoreCases(text: string, keyword: string)
    ensures var k := LowerStr(keyword);
      && (KeywordScore(text, keyword) == 3 <==> ' ' in k && Contains(text, k))
      && (KeywordScore(text, keyword) == 2 <==> ' ' !in k && WordMatch(text, k))
      && (KeywordScore(text, keyword) == 0 <==> !Contains(text, k) || (' ' !in k && !WordMatch(text, k)))
  {
    var k := LowerStr(keyword);
    if WordMatch(text, k) {
      WordMatchContains(text, k);
    }
  }

  /** A phrase keyword that is not a substring of the text contributes 0. */
  lemma PhraseNotFoundScoresZero(text: string, keyword: string)
    requires ' ' in LowerStr(keyword)
    requires !Contains(text, LowerStr(keyword))
    ensures KeywordScore(text, keyword) == 0
  {
    KeywordScoreCases(text, keyword);
  }

  // ---------------------------------------------------------------------
  // The sum
  // ---------------------------------------------------------------------

  /** Every keyword earns at most 3, so the total is between 0 and 3 per keyword. */
  lemma {:induction false} MatchScoreBounds(text: string, keywords: seq<string>)
    ensures 0 <= MatchScore(text, keywords) <= 3 * |keywords|
    decreases |keywords|
  {
    if keywords != [] {
      KeywordScoreCases(text, keywords[0]);
      MatchScoreBounds(text, keywords[1..]);
    }
  }

  /** The score of a concatenated list is the sum of the parts' scores, so a
      repeated keyword counts once per occurrence in the list. */
  lemma {:induction false} MatchScoreAppend(text: string, a: seq<string>, b: seq<string>)
    ensures MatchScore(text, a + b) == MatchScore(text, a) + MatchScore(text, b)
    decreases |a|
  {
    if a == [] {
      assert a + b == b;
    } else {
      assert (a + b)[0] == a[0];
      assert (a + b)[1..] == a[1..] + b;
      MatchScoreAppend(text, a[1..], b);
    }
  }

  /** A duplicated keyword earns its points twice. */
  lemma DuplicateKeywordCountsTwice(text: string, keywords: seq<string>, k: string)
    ensures MatchScore(text, keywords + [k, k]) == MatchScore(text, keywords) + 2 * KeywordScore(text, k)
  {
    MatchScoreAppend(text, keywords, [k, k]);
    calc {
      MatchScore(text, [k, k]);
      { assert [k, k][1..] == [k]; }
      KeywordScore(text, k) + MatchScore(text, [k]);
      { assert [k][1..] == []; }
      KeywordScore(text, k) + KeywordScore(text, k) + MatchScore(text, []);
    }
  }

  /** A list scores above 0 exactly when one of its keywords does. */
  lemma {:induction false} MatchScorePositive(text: string, keywords: seq<string>)
    ensures MatchScore(text, keywords) > 0 <==> exists j | 0 <= j < |keywords| :: KeywordScore(text, keywords[j]) > 0
    decreases |keywords|
  {
    if keywords != [] {
      MatchScorePositive(text, keywords[1..]);
      if MatchScore(text, keywords[1..]) > 0 {
        var j :| 0 <= j < |keywords[1..]| && KeywordScore(text, keywords[1..][j]) > 0;
        assert keywords[1..][j] == keywords[j + 1];
      }
      forall j | 1 <= j < |keywords|
        ensures keywords[j] == keywords[1..][j - 1]
      {
      }
    }
  }

  // ---------------------------------------------------------------------
  // Whole words of a normalised text
  // ---------------------------------------------------------------------

  /** A single-word keyword as the catalog writes them: non-empty `[a-z0-9]+`. */
  predicate IsToken(k: string)
  {
    |k| > 0 && forall i | 0 <= i < |k| :: IsLowerAlnum(k[i])
  }

  /** Position of the first space of `s`. */
  function FirstSpace(s: string): (j: nat)
    requires ' ' in s
    ensures j < |s| && s[j] == ' '
    ensures forall i | 0 <= i < j :: s[i] != ' '
  {
    if s[0] == ' ' then 0 else 1 + FirstSpace(s[1..])
  }

  /** `s.split(" ")`. */
  function Words(s: string): (r: seq<string>)
    decreases |s|
  {
    if ' ' !in s then [s]
    else var j := FirstSpace(s); [s[..j]] + Words(s[j + 1..])
  }

  /** Past a non-word character, `\b` in the rest of the text is `\b` in the
      whole text. */
  lemma BoundaryShift(text: string, j: int, i: int)
    requires 0 <= j < |text| && !IsWordChar(text[j])
    requires 0 <= i <= |text| - j - 1
    ensures AtBoundary(text, j + 1 + i) == AtBoundary(text[j + 1..], i)
  {
  }

  /** A token found between word boundaries in a stretch of word characters
      is the whole stretch. */
  lemma TokenFillsWord(text: string, k: string, i: int, j: int)
    requires IsToken(k) && 0 <= i && i + |k| <= j <= |text|
    requires forall p | 0 <= p < j :: IsWordChar(text[p])
    requires j < |text| ==> !IsWordChar(text[j])
    requires OccursAt(text, k, i) && AtBoundary(text, i) && AtBoundary(text, i + |k|)
    ensures i == 0 && i + |k| == j
  {
    assert text[i] == k[0];
    assert text[i + |k| - 1] == k[|k| - 1];
  }

  /** A text without spaces: the token matches exactly when it is the text. */
  lemma WordMatchNoSpace(text: string, k: string)
    requires forall i | 0 <= i < |text| :: InAlphabet(text[i])
    requires ' ' !in text && IsToken(k)
    ensures WordMatch(text, k) <==> k == text
  {
    if WordMatch(text, k) {
      var i :| 0 <= i <= |text| - |k| && OccursAt(text, k, i) && AtBoundary(text, i) && AtBoundary(text, i + |k|);
      TokenFillsWord(text, k, i, |text|);
      assert text == text[i..i + |k|];
    }
    if k == text {
      assert OccursAt(text, k, 0);
      assert AtBoundary(text, 0) && AtBoundary(text, |k|);
    }
  }

  /** A match in a text with a space lies in the first word or in the rest. */
  lemma WordMatchSplitForward(text: string, k: string, j: nat)
    requires forall i | 0 <= i < |text| :: InAlphabet(text[i])
    requires IsToken(k) && j < |text| && text[j] == ' '
    requires forall p | 0 <= p < j :: text[p] != ' '
    requires WordMatch(text, k)
    ensures k == text[..j] || WordMatch(text[j + 1..], k)
  {
    var rest := text[j + 1..];
    var i :| 0 <= i <= |text| - |k| && OccursAt(text, k, i) && AtBoundary(text, i) && AtBoundary(text, i + |k|);
    if i + |k| <= j {
      TokenFillsWord(text, k, i, j);
    } else {
      MatchPastSpace(text, k, j, i);
    }
  }

  /** A token occurrence that ends past a space starts past it, and is then
      an occurrence in the rest of the text. */
  lemma MatchPastSpace(text: string, k: string, j: nat, i: nat)
    requires IsToken(k) && j < |text| && text[j] == ' '
    requires j < i + |k| && OccursAt(text, k, i) && AtBoundary(text, i) && AtBoundary(text, i + |k|)
    ensures WordMatch(text[j + 1..], k)
  {
    var rest := text[j + 1..];
    assert i > j;
    var i' := i - j - 1;
    BoundaryShift(text, j, i');
    BoundaryShift(text, j, i' + |k|);
    assert rest[i'..i' + |k|] == text[i..i + |k|];
    assert OccursAt(rest, k, i');
  }

  /** The first word of a text is a match in it. */
  lemma FirstWordMatches(text: string, j: nat)
    requires forall i | 0 <= i < |text| :: InAlphabet(text[i])
    requires j < |text| && text[j] == ' ' && IsToken(text[..j])
    ensures WordMatch(text, text[..j])
  {
    var k := text[..j];
    assert OccursAt(text, k, 0);
    assert AtBoundary(text, 0) by {
      assert text[0] == k[0];
    }
    assert AtBoundary(text, |k|);
  }

  /** A match in the text after a space is a match in the whole text. */
  lemma RestMatchLifts(text: string, k: string, j: nat)
    requires j < |text| && text[j] == ' '
    requires WordMatch(text[j + 1..], k)
    ensures WordMatch(text, k)
  {
    var rest := text[j + 1..];
    var i' :| 0 <= i' <= |rest| - |k| && OccursAt(rest, k, i') && AtBoundary(rest, i') && AtBoundary(rest, i' + |k|);
    BoundaryShift(text, j, i');
    BoundaryShift(text, j, i' + |k|);
    assert text[j + 1 + i'..j + 1 + i' + |k|] == rest[i'..i' + |k|];
    assert OccursAt(text, k, j + 1 + i');
  }

  /** The first word, and every match in the rest, are matches in the text. */
  lemma WordMatchSplitBackward(text: string, k: string, j: nat)
    requires forall i | 0 <= i < |text| :: InAlphabet(text[i])
    requires IsToken(k) && j < |text| && text[j] == ' '
    requires forall p | 0 <= p < j :: text[p] != ' '
    requires k == text[..j] || WordMatch(text[j + 1..], k)
    ensures WordMatch(text, k)
  {
    if k == text[..j] {
      FirstWordMatches(text, j);
    } else {
      RestMatchLifts(text, k, j);
    }
  }

  /** `split(" ")` takes off the text up to the first space. */
  lemma WordsStep(text: string, j: nat)
    requires j < |text| && text[j] == ' '
    requires forall p | 0 <= p < j :: text[p] != ' '
    ensures Words(text) == [text[..j]] + Words(text[j + 1..])
  {
    FirstSpaceIs(text, j);
  }

  lemma FirstSpaceIs(text: string, j: nat)
    requires j < |text| && text[j] == ' '
    requires forall p | 0 <= p < j :: text[p] != ' '
    ensures ' ' in text && FirstSpace(text) == j
  {
    assert text[j] in text;
  }

  lemma AlphabetSuffix(text: string, j: nat)
    requires forall i | 0 <= i < |text| :: InAlphabet(text[i])
    requires j <= |text|
    ensures forall i | 0 <= i < |text[j..]| :: InAlphabet(text[j..][i])
  {
    forall i | 0 <= i < |text[j..]|
      ensures InAlphabet(text[j..][i])
    {
      assert text[j..][i] == text[j + i];
    }
  }

  /** On a text of `[a-z0-9]` and spaces, a single-word keyword matches
      between word boundaries exactly when it is one of the space-separated
      words. */
  lemma {:induction false} TokenMatchIsWholeWord(text: string, k: string)
    requires forall i | 0 <= i < |text| :: InAlphabet(text[i])
    requires IsToken(k)
    ensures WordMatch(text, k) <==> k in Words(text)
    decreases |text|
  {
    if ' ' !in text {
      WordMatchNoSpace(text, k);
    } else {
      var j := FirstSpace(text);
      var rest := text[j + 1..];
      WordsStep(text, j);
      AlphabetSuffix(text, j + 1);
      TokenMatchIsWholeWord(rest, k);
      if WordMatch(text, k) {
        WordMatchSplitForward(text, k, j);
      }
      if k == text[..j] || WordMatch(rest, k) {
        WordMatchSplitBackward(text, k, j);
      }
    }
  }

  /** On a text of `[a-z0-9]` and spaces, a keyword that lower-cases to a
      single word earns 2 exactly when that word is one of the text's words. */
  lemma TokenScoreOnAlphabet(text: string, keyword: string)
    requires forall i | 0 <= i < |text| :: InAlphabet(text[i])
    requires IsToken(LowerStr(keyword))
    ensures KeywordScore(text, keyword) == if LowerStr(keyword) in Words(text) then 2 else 0
  {
    var k := LowerStr(keyword);
    assert ' ' !in k;
    TokenMatchIsWholeWord(text, k);
  }

  /** On normalised text a single-word keyword earns 2 exactly when it is one
      of the text's words, and 0 otherwise. */
  lemma TokenKeywordScore(raw: string, keyword: string)
    requires IsToken(LowerStr(keyword))
    ensures var text := Preprocess(raw);
      KeywordScore(text, keyword) == (if LowerStr(keyword) in Words(text) then 2 else 0)
  {
    PreprocessIsNormal(raw);
    TokenScoreOnAlphabet(Preprocess(raw), keyword);
  }

  // ---------------------------------------------------------------------
  // Phrases and two-word texts
  // ---------------------------------------------------------------------

  /** A phrase can only occur in a text that has a space. */
  lemma PhraseNeedsSpace(text: string, k: string)
    requires ' ' in k && Contains(text, k)
    ensures ' ' in text
  {
    var i :| 0 <= i <= |text| - |k| && OccursAt(text, k, i);
    var p :| 0 <= p < |k| && k[p] == ' ';
    assert text[i + p] == text[i..i + |k|][p];
  }

  lemma WordsOfTwo(a: string, b: string)
    requires IsToken(a) && IsToken(b)
    ensures Words(a + " " + b) == [a, b]
    ensures forall i | 0 <= i < |a + " " + b| :: InAlphabet((a + " " + b)[i])
  {
    var s := a + " " + b;
    assert s[|a|] == ' ';
    var j := FirstSpace(s);
    assert j == |a|;
    assert s[..j] == a;
    assert s[j + 1..] == b;
  }

  /** Splitting a text that starts with a token and a space gives the token,
      then the split of the rest. */
  lemma WordsCons(a: string, rest: string)
    requires IsToken(a)
    ensures Words(a + " " + rest) == [a] + Words(rest)
  {
    var s := a + " " + rest;
    assert s[|a|] == ' ';
    forall p | 0 <= p < |a|
      ensures s[p] != ' '
    {
      assert s[p] == a[p];
    }
    WordsStep(s, |a|);
    assert s[..|a|] == a;
    assert s[|a| + 1..] == rest;
  }
  lemma WordsOfThree(a: string, b: string, c: string)
    requires IsToken(a) && IsToken(b) && IsToken(c)
    ensures Words(a + " " + b + " " + c) == [a, b, c]
  {
    WordsOfTwo(b, c);
    assert a + " " + b + " " + c == a + " " + (b + " " + c);
    WordsCons(a, b + " " + c);
  }


  /** A two-word text: a token earns 2 exactly when it is one of the words. */
  lemma TwoWordTokenScore(a: string, b: string, k: string)
    requires IsToken(a) && IsToken(b) && IsToken(k)
    ensures KeywordScore(a + " " + b, k) == if k == a || k == b then 2 else 0
  {
    WordsOfTwo(a, b);
    LowerStrIdentity(k);
    TokenScoreOnAlphabet(a + " " + b, k);
  }

  /** A keyword holding a character the text lacks is not a substring of it. */
  lemma MissingCharNotContained(text: string, k: string, c: char)
    requires c in k && c !in text
    ensures !Contains(text, k)
  {
    var p :| 0 <= p < |k| && k[p] == c;
    forall i | 0 <= i <= |text| - |k|
      ensures !OccursAt(text, k, i)
    {
      assert i + p < |text| && text[i + p] != c;
    }
  }

  /** A list of plain keywords none of which is a substring of the text
      scores 0. */
  lemma {:induction false} AbsentKeywordsScoreZero(text: string, keywords: seq<string>)
    requires PlainKeywords(keywords)
    requires forall j | 0 <= j < |keywords| :: !Contains(text, keywords[j])
    ensures MatchScore(text, keywords) == 0
    decreases |keywords|
  {
    if keywords != [] {
      LowerStrIdentity(keywords[0]);
      KeywordScoreCases(text, keywords[0]);
      AbsentKeywordsScoreZero(text, keywords[1..]);
    }
  }

  /** When only the keyword at position `j` can be a substring of the text,
      the list scores what that keyword scores. */
  lemma {:induction false} OnlyKeywordScores(text: string, keywords: seq<string>, j: nat)
    requires PlainKeywords(keywords) && j < |keywords|
    requires forall i | 0 <= i < |keywords| && i != j :: !Contains(text, keywords[i])
    ensures MatchScore(text, keywords) == KeywordScore(text, keywords[j])
    decreases |keywords|
  {
    var rest := keywords[1..];
    if j == 0 {
      AbsentKeywordsScoreZero(text, rest);
    } else {
      LowerStrIdentity(keywords[0]);
      KeywordScoreCases(text, keywords[0]);
      OnlyKeywordScores(text, rest, j - 1);
    }
  }

  // ---------------------------------------------------------------------
  // A scanning reference scorer
  // ---------------------------------------------------------------------

  /** The characters of `k` from position `m` on agree with those of `text`
      from position `i + m` on. */
  function AgreeFrom(text: string, k: string, i: nat, m: nat): (r: bool)
    requires i + |k| <= |text| && m <= |k|
    decreases |k| - m
  {
    m == |k| || (text[i + m] == k[m] && AgreeFrom(text, k, i, m + 1))
  }

  /** `k` occurs in `text` at position `i` or later, found by a left-to-right
      scan. */
  function OccursFrom(text: string, k: string, i: nat): (r: bool)
    decreases |text| - i
  {
    if i + |k| > |text| then false
    else AgreeFrom(text, k, i, 0) || OccursFrom(text, k, i + 1)
  }

  lemma {:induction false} AgreeFromIsOccursAt(text: string, k: string, i: nat, m: nat)
    requires i + |k| <= |text| && m <= |k|
    ensures AgreeFrom(text, k, i, m) <==> forall p | m <= p < |k| :: text[i + p] == k[p]
    decreases |k| - m
  {
    if m < |k| {
      AgreeFromIsOccursAt(text, k, i, m + 1);
    }
  }

  lemma {:induction false} OccursFromIsContains(text: string, k: string, i: nat)
    ensures OccursFrom(text, k, i) <==> exists j | i <= j <= |text| - |k| :: OccursAt(text, k, j)
    decreases |text| - i
  {
    if i + |k| <= |text| {
      OccursFromIsContains(text, k, i + 1);
      AgreeFromIsOccursAt(text, k, i, 0);
      if AgreeFrom(text, k, i, 0) {
        assert text[i..i + |k|] == k;
        assert OccursAt(text, k, i);
      }
      if exists j | i <= j <= |text| - |k| :: OccursAt(text, k, j) {
        var j :| i <= j <= |text| - |k| && OccursAt(text, k, j);
        if j == i {
          forall p | 0 <= p < |k|
            ensures text[i + p] == k[p]
          {
            assert text[i..i + |k|][p] == k[p];
          }
        } else {
          assert exists j' | i + 1 <= j' <= |text| - |k| :: OccursAt(text, k, j');
        }
      }
    }
  }

  /** A keyword as the catalog writes them: lower-case letters, digits and
      spaces, and not empty. One without a space is a token. */
  predicate PlainKeyword(k: string)
  {
    |k| > 0 && forall i | 0 <= i < |k| :: InAlphabet(k[i])
  }

  predicate PlainKeywords(keywords: seq<string>)
  {
    forall j | 0 <= j < |keywords| :: PlainKeyword(keywords[j])
  }

  /** The points a plain keyword earns, computed from a scan of the text and
      from its word list `words` instead of from boundary positions. */
  function ScanScore(text: string, words: seq<string>, k: string): (r: nat)
  {
    if ' ' in k then (if OccursFrom(text, k, 0) then 3 else 0)
    else if k in words then 2 else 0
  }

  function ScanMatchScore(text: string, words: seq<string>, keywords: seq<string>): (r: nat)
  {
    if keywords == [] then 0
    else ScanScore(text, words, keywords[0]) + ScanMatchScore(text, words, keywords[1..])
  }

  /** On normal text the source's scoring of a plain keyword agrees with the
      scanning scorer given the text's word list. */
  lemma KeywordScoreByScan(text: string, k: string)
    requires forall i | 0 <= i < |text| :: InAlphabet(text[i])
    requires PlainKeyword(k)
    ensures KeywordScore(text, k) == ScanScore(text, Words(text), k)
  {
    LowerStrIdentity(k);
    OccursFromIsContains(text, k, 0);
    if ' ' in k {
      if WordMatch(text, k) {
        WordMatchContains(text, k);
      }
    } else {
      TokenScoreOnAlphabet(text, k);
    }
  }

  lemma {:induction false} MatchScoreByScan(text: string, keywords: seq<string>)
    requires forall i | 0 <= i < |text| :: InAlphabet(text[i])
    requires PlainKeywords(keywords)
    ensures MatchScore(text, keywords) == ScanMatchScore(text, Words(text), keywords)
    decreases |keywords|
  {
    if keywords != [] {
      KeywordScoreByScan(text, keywords[0]);
      MatchScoreByScan(text, keywords[1..]);
    }
  }

}
