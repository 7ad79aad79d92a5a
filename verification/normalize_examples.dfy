/** `preprocess` on concrete inputs. */
module NormalizeExamples {
  import opened Chars
  import opened Normalize

  lemma LowerCantBreathe()
    ensures LowerStr("Can't breathe") == "can't breathe"
  {
  }

  lemma CantBreatheParts()
    ensures StartsWithCant("can't breathe")
    ensures "can't breathe"[5..] == " breathe"
    ensures "cant" + " breathe" == "cant breathe"
  {
  }

  lemma BreatheHasNoApostrophe()
    ensures ReplaceCant(" breathe") == " breathe"
  {
    var rest := " breathe";
    forall i | 0 <= i < |rest|
      ensures rest[i] != '\''
    {
    }
    ReplaceCantIdentity(rest);
  }

  lemma RewriteCantBreathe()
    ensures ReplaceCant("can't breathe") == "cant breathe"
  {
    CantBreatheParts();
    BreatheHasNoApostrophe();
  }

  lemma CantBreatheIsNormal()
    ensures IsNormal("cant breathe")
  {
  }

  /** "can't" is rewritten before punctuation is replaced, so the phrase
      keyword "cant breathe" can match. */
  lemma CantBreatheExample()
    ensures Preprocess("Can't breathe") == "cant breathe"
  {
    LowerCantBreathe();
    RewriteCantBreathe();
    CantBreatheIsNormal();
    NormalPassesThrough("cant breathe");
  }

  lemma LowerChestPain()
    ensures LowerStr("Chest-pain!") == "chest-pain!"
  {
  }

  lemma RewriteChestPain()
    ensures ReplaceCant("chest-pain!") == "chest-pain!"
  {
    var s := "chest-pain!";
    forall i | 0 <= i < |s|
      ensures s[i] != '\''
    {
    }
    ReplaceCantIdentity(s);
  }

  lemma MaskChestPain()
    ensures MaskPunctuation("chest-pain!") == "chest pain "
  {
    var s := "chest-pain!";
    assert !Kept(s[5]) && !Kept(s[10]);
  }

  lemma ChestPainIsNormal()
    ensures IsNormal("chest pain")
    ensures "chest pain " == "chest pain" + " "
  {
  }

  /** Punctuation is replaced by a space, not deleted. */
  lemma PunctuationBecomesSpaceExample()
    ensures Preprocess("Chest-pain!") == "chest pain"
  {
    LowerChestPain();
    RewriteChestPain();
    MaskChestPain();
    ChestPainIsNormal();
    CollapseTrailingSpace("chest pain");
  }
}
