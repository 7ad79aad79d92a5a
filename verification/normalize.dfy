/** The text normaliser `preprocess` (rules.py:6-11): lower-case, rewrite
    "can't" to "cant", turn every character outside `[a-z0-9\s]` into a space,
    collapse whitespace runs into one space and strip both ends. */
module Normalize {
  import opened Chars

  /** The characters of a normalised text: `[a-z0-9]` and the plain space. */
  predicate InAlphabet(c: char) { IsLowerAlnum(c) || c == ' ' }

  /** The characters the punctuation step keeps as they are. */
  predicate Kept(c: char) { IsLowerAlnum(c) || IsSpace(c) }

  /** Only alphabet characters, and never two spaces in a row. */
  predicate SingleSpaced(s: string)
  {
    && (forall i | 0 <= i < |s| :: InAlphabet(s[i]))
    && (forall i | 0 <= i < |s| - 1 :: !(s[i] == ' ' && s[i + 1] == ' '))
  }

  /** The shape of every output of `Preprocess`. */
  predicate IsNormal(s: string)
  {
    && SingleSpaced(s)
    && (|s| > 0 ==> s[0] != ' ' && s[|s| - 1] != ' ')
  }

  /** `s` starts with the five characters of "can't". */
  predicate StartsWithCant(s: string)
  {
    |s| >= 5 && s[0] == 'c' && s[1] == 'a' && s[2] == 'n' && s[3] == '\'' && s[4] == 't'
  }

  /** `str.replace("can't", "cant")`: a left-to-right scan replacing each
      non-overlapping occurrence. */
  function ReplaceCant(s: string): (r: string)
    decreases |s|
  {
    if StartsWithCant(s) then "cant" + ReplaceCant(s[5..])
    else if s == [] then []
    else [s[0]] + ReplaceCant(s[1..])
  }

  /** `re.sub(r"[^a-z0-9\s]", " ", s)`: each other character becomes a space. */
  function MaskPunctuation(s: string): (r: string)
    ensures |r| == |s|
    ensures forall i | 0 <= i < |s| :: r[i] == if Kept(s[i]) then s[i] else ' '
  {
    seq(|s|, i requires 0 <= i < |s| => if Kept(s[i]) then s[i] else ' ')
  }

  /** The punctuation step leaves only `[a-z0-9]` and whitespace, loses no
      letter or digit and moves none, and changes a text exactly when the
      text holds some other character. */
  lemma MaskPunctuationKeeps(s: string)
    ensures forall i | 0 <= i < |MaskPunctuation(s)| :: Kept(MaskPunctuation(s)[i])
    ensures Alnums(MaskPunctuation(s)) == Alnums(s)
    ensures MaskPunctuation(s) == s <==> forall i | 0 <= i < |s| :: Kept(s[i])
  {
    var r := MaskPunctuation(s);
    AlnumsPointwise(s, r);
    if r == s {
      forall i | 0 <= i < |s|
        ensures Kept(s[i])
      {
        assert r[i] == s[i];
      }
    }
  }

  /** Drops the leading whitespace of `s`; the rest is a suffix of `s`. */
  function DropLeadingSpace(s: string): (r: string)
    ensures |r| <= |s| && r == s[|s| - |r|..]
    ensures r == [] || !IsSpace(r[0])
    ensures forall i | 0 <= i < |s| - |r| :: IsSpace(s[i])
  {
    if s != [] && IsSpace(s[0]) then DropLeadingSpace(s[1..]) else s
  }

  /** Drops the trailing whitespace of `s`; the rest is a prefix of `s`. */
  function DropTrailingSpace(s: string): (r: string)
    ensures |r| <= |s| && r == s[..|r|]
    ensures r == [] || !IsSpace(r[|r| - 1])
    ensures forall i | |r| <= i < |s| :: IsSpace(s[i])
  {
    if s != [] && IsSpace(s[|s| - 1]) then DropTrailingSpace(s[..|s| - 1]) else s
  }

  /** `re.sub(r"\s+", " ", s)`: each maximal whitespace run becomes one space. */
  function Collapse(s: string): (r: string)
    decreases |s|
  {
    if s == [] then []
    else if IsSpace(s[0]) then " " + Collapse(DropLeadingSpace(s[1..]))
    else [s[0]] + Collapse(s[1..])
  }

  /** `str.strip()`. */
  function Strip(s: string): (r: string)
  {
    DropTrailingSpace(DropLeadingSpace(s))
  }

  /** `preprocess(text)`. */
  function Preprocess(text: string): (r: string)
  {
    Strip(Collapse(MaskPunctuation(ReplaceCant(LowerStr(text)))))
  }

  // ---------------------------------------------------------------------
  // The output alphabet and shape
  // ---------------------------------------------------------------------

  /** Collapsing a text of kept characters leaves only alphabet characters,
      no double space, and starts with a space exactly when the input starts
      with whitespace. */
  lemma {:induction false} CollapseShape(s: string)
    requires forall i | 0 <= i < |s| :: Kept(s[i])
    ensures SingleSpaced(Collapse(s))
    ensures |Collapse(s)| > 0 <==> |s| > 0
    ensures |s| > 0 ==> (Collapse(s)[0] == ' ' <==> IsSpace(s[0]))
    decreases |s|
  {
    if s == [] {
    } else if IsSpace(s[0]) {
      var t := DropLeadingSpace(s[1..]);
      assert forall i | 0 <= i < |t| :: t[i] == s[1 + |s[1..]| - |t| + i];
      CollapseShape(t);
      var c := Collapse(t);
      assert Collapse(s) == " " + c;
      assert |c| > 0 ==> c[0] != ' ';
    } else {
      CollapseShape(s[1..]);
      assert Collapse(s) == [s[0]] + Collapse(s[1..]);
    }
  }

  /** A whitespace run between two non-whitespace characters becomes exactly
      one space: collapsing never glues two words together and never splits
      one. */
  lemma CollapseRun(a: string, w: string, b: string)
    requires |a| > 0 ==> !IsSpace(a[|a| - 1])
    requires |w| > 0 && forall i | 0 <= i < |w| :: IsSpace(w[i])
    requires |b| > 0 ==> !IsSpace(b[0])
    ensures Collapse(a + w + b) == Collapse(a) + " " + Collapse(b)
  {
    CollapseRunAlone(w, b);
    CollapseAfter(a, w + b, " " + Collapse(b));
    Assoc(a, w, b);
    Assoc(Collapse(a), " ", Collapse(b));
  }

  /** Text `a` that ends in a non-whitespace character collapses on its
      own, whatever follows it. */
  lemma {:induction false} CollapseAfter(a: string, rest: string, c: string)
    requires |a| > 0 ==> !IsSpace(a[|a| - 1])
    requires Collapse(rest) == c
    ensures Collapse(a + rest) == Collapse(a) + c
    decreases |a|
  {
    if a == [] {
      assert a + rest == rest;
      assert Collapse(a) + c == c;
    } else if IsSpace(a[0]) {
      var t := SpaceHeadStep(a, rest);
      CollapseAfter(t, rest, c);
      CollapseSpaceFirst(a);
      Assoc(" ", Collapse(t), c);
    } else {
      WordHeadStep(a, rest);
      var t := a[1..];
      assert |t| > 0 ==> t[|t| - 1] == a[|a| - 1];
      CollapseAfter(t, rest, c);
      Assoc([a[0]], Collapse(t), c);
    }
  }

  lemma Assoc(x: string, y: string, z: string)
    ensures x + (y + z) == x + y + z
  {
  }

  /** Past a leading whitespace run that ends inside `a`, collapsing
      continues with the rest `t` of `a`. */
  lemma SpaceHeadStep(a: string, rest: string) returns (t: string)
    requires |a| > 0 && IsSpace(a[0]) && !IsSpace(a[|a| - 1])
    ensures t == DropLeadingSpace(a[1..])
    ensures 0 < |t| < |a| && !IsSpace(t[|t| - 1])
    ensures Collapse(a + rest) == " " + Collapse(t + rest)
  {
    var u := a[1..];
    assert u[|u| - 1] == a[|a| - 1];
    t := DropLeadingSpace(u);
    DropLeadingKeepsLast(u);
    HeadAndTail(a, rest);
    DropLeadingAppend(u, rest);
    CollapseSpaceFirst(a + rest);
  }

  lemma HeadAndTail(a: string, rest: string)
    requires |a| > 0
    ensures (a + rest)[0] == a[0]
    ensures (a + rest)[1..] == a[1..] + rest
  {
  }

  lemma DropLeadingKeepsLast(u: string)
    requires |u| > 0 && !IsSpace(u[|u| - 1])
    ensures 0 < |DropLeadingSpace(u)| <= |u|
    ensures DropLeadingSpace(u)[|DropLeadingSpace(u)| - 1] == u[|u| - 1]
  {
    var t := DropLeadingSpace(u);
    assert t == u[|u| - |t|..];
  }

  /** A leading non-whitespace character is copied. */
  lemma WordHeadStep(a: string, rest: string)
    requires |a| > 0 && !IsSpace(a[0])
    ensures Collapse(a + rest) == [a[0]] + Collapse(a[1..] + rest)
    ensures Collapse(a) == [a[0]] + Collapse(a[1..])
  {
    assert (a + rest)[0] == a[0];
    assert (a + rest)[1..] == a[1..] + rest;
  }

  /** A leading whitespace run becomes one space. */
  lemma CollapseRunAlone(w: string, b: string)
    requires |w| > 0 && forall i | 0 <= i < |w| :: IsSpace(w[i])
    requires |b| > 0 ==> !IsSpace(b[0])
    ensures Collapse(w + b) == " " + Collapse(b)
  {
    RunThenWord(w, b);
    CollapseSpaceFirst(w + b);
  }

  lemma RunThenWord(w: string, b: string)
    requires |w| > 0 && forall i | 0 <= i < |w| :: IsSpace(w[i])
    requires |b| > 0 ==> !IsSpace(b[0])
    ensures IsSpace((w + b)[0])
    ensures DropLeadingSpace((w + b)[1..]) == b
  {
    assert (w + b)[0] == w[0];
    assert (w + b)[1..] == w[1..] + b;
    DropSpacesBefore(w[1..], b);
  }

  lemma CollapseSpaceFirst(s: string)
    requires |s| > 0 && IsSpace(s[0])
    ensures Collapse(s) == " " + Collapse(DropLeadingSpace(s[1..]))
  {
  }

  /** Dropping the leading whitespace of `w + b` leaves `b` when `w` is all
      whitespace and `b` does not start with any. */
  lemma {:induction false} DropSpacesBefore(w: string, b: string)
    requires forall i | 0 <= i < |w| :: IsSpace(w[i])
    requires |b| > 0 ==> !IsSpace(b[0])
    ensures DropLeadingSpace(w + b) == b
    decreases |w|
  {
    if w == [] {
      assert w + b == b;
    } else {
      assert (w + b)[1..] == w[1..] + b;
      DropSpacesBefore(w[1..], b);
    }
  }

  /** The leading whitespace of `a + t` lies within `a` when `a` ends in a
      non-whitespace character. */
  lemma {:induction false} DropLeadingAppend(a: string, t: string)
    requires |a| > 0 && !IsSpace(a[|a| - 1])
    ensures DropLeadingSpace(a + t) == DropLeadingSpace(a) + t
    decreases |a|
  {
    if IsSpace(a[0]) {
      assert (a + t)[1..] == a[1..] + t;
      DropLeadingAppend(a[1..], t);
    }
  }

  /** Any slice of a single-spaced text is single-spaced. */
  lemma SingleSpacedSlice(s: string, lo: int, hi: int)
    requires SingleSpaced(s) && 0 <= lo <= hi <= |s|
    ensures SingleSpaced(s[lo..hi])
  {
    var t := s[lo..hi];
    forall i | 0 <= i < |t| - 1
      ensures !(t[i] == ' ' && t[i + 1] == ' ')
    {
      assert t[i] == s[lo + i] && t[i + 1] == s[lo + i + 1];
    }
  }

  /** Stripping a single-spaced text leaves a normal text. */
  lemma StripNormal(s: string)
    requires SingleSpaced(s)
    ensures IsNormal(Strip(s))
  {
    var a := DropLeadingSpace(s);
    SingleSpacedSlice(s, |s| - |a|, |s|);
    var b := DropTrailingSpace(a);
    SingleSpacedSlice(a, 0, |b|);
    assert |b| > 0 ==> !IsSpace(b[0]) by {
      if |b| > 0 {
        assert b[0] == a[0];
      }
    }
  }

  /** Every output of `Preprocess` holds only `[a-z0-9]` and single spaces,
      with no space at either end. */
  lemma PreprocessIsNormal(text: string)
    ensures IsNormal(Preprocess(text))
  {
    var m := MaskPunctuation(ReplaceCant(LowerStr(text)));
    CollapseShape(m);
    StripNormal(Collapse(m));
  }

  // ---------------------------------------------------------------------
  // Idempotence
  // ---------------------------------------------------------------------

  lemma {:induction false} ReplaceCantIdentity(s: string)
    requires forall i | 0 <= i < |s| :: s[i] != '\''
    ensures ReplaceCant(s) == s
    decreases |s|
  {
    assert !StartsWithCant(s) by {
      if |s| >= 5 {
        assert s[3] != '\'';
      }
    }
    if s != [] {
      ReplaceCantIdentity(s[1..]);
      assert s == [s[0]] + s[1..];
    }
  }

  lemma {:induction false} CollapseIdentity(s: string)
    requires SingleSpaced(s)
    ensures Collapse(s) == s
    decreases |s|
  {
    if s != [] {
      var t := s[1..];
      SingleSpacedSlice(s, 1, |s|);
      CollapseIdentity(t);
      if IsSpace(s[0]) {
        assert t == [] || (InAlphabet(t[0]) && t[0] != ' ') by {
          if t != [] {
            assert t[0] == s[1];
          }
        }
        assert DropLeadingSpace(t) == t;
        assert Collapse(s) == " " + t;
      } else {
        assert Collapse(s) == [s[0]] + t;
      }
      assert s == [s[0]] + t;
    }
  }

  /** A text is its own normal form exactly when it is normal; hence
      `Preprocess` is idempotent. */
  lemma PreprocessFixpoint(s: string)
    ensures Preprocess(s) == s <==> IsNormal(s)
  {
    if IsNormal(s) {
      LowerStrIdentity(s);
      ReplaceCantIdentity(s);
      NormalPassesThrough(s);
    } else {
      PreprocessIsNormal(s);
    }
  }

  lemma PreprocessIdempotent(text: string)
    ensures Preprocess(Preprocess(text)) == Preprocess(text)
  {
    PreprocessIsNormal(text);
    PreprocessFixpoint(Preprocess(text));
  }
  // ---------------------------------------------------------------------
  // What survives: every letter and digit, in order
  // ---------------------------------------------------------------------

  /** The `[a-z0-9]` characters of a text, in order. */
  function Alnums(s: string): (r: string)
  {
    if s == [] then [] else (if IsLowerAlnum(s[0]) then [s[0]] else []) + Alnums(s[1..])
  }

  lemma {:induction false} AlnumsAppend(a: string, b: string)
    ensures Alnums(a + b) == Alnums(a) + Alnums(b)
    decreases |a|
  {
    if a == [] {
      assert a + b == b;
    } else {
      var h := if IsLowerAlnum(a[0]) then [a[0]] else [];
      AlnumsAppend(a[1..], b);
      calc {
        Alnums(a + b);
        { assert (a + b)[0] == a[0]; assert (a + b)[1..] == a[1..] + b; }
        h + Alnums(a[1..] + b);
        h + (Alnums(a[1..]) + Alnums(b));
        (h + Alnums(a[1..])) + Alnums(b);
      }
    }
  }

  lemma {:induction false} AlnumsOfSpaces(s: string)
    requires forall i | 0 <= i < |s| :: IsSpace(s[i])
    ensures Alnums(s) == []
    decreases |s|
  {
    if s != [] {
      AlnumsOfSpaces(s[1..]);
    }
  }

  /** Two texts that agree on where the letters and digits are, and on what
      they are, have the same letters and digits. */
  lemma {:induction false} AlnumsPointwise(a: string, b: string)
    requires |a| == |b|
    requires forall i | 0 <= i < |a| :: IsLowerAlnum(a[i]) <==> IsLowerAlnum(b[i])
    requires forall i | 0 <= i < |a| :: IsLowerAlnum(a[i]) ==> a[i] == b[i]
    ensures Alnums(a) == Alnums(b)
    decreases |a|
  {
    if a != [] {
      AlnumsPointwise(a[1..], b[1..]);
    }
  }

  lemma {:induction false} AlnumsReplaceCant(s: string)
    ensures Alnums(ReplaceCant(s)) == Alnums(s)
    decreases |s|
  {
    if StartsWithCant(s) {
      AlnumsReplaceCant(s[5..]);
      AlnumsAppend("cant", ReplaceCant(s[5..]));
      AlnumsAppend(s[..5], s[5..]);
      assert s == s[..5] + s[5..];
      assert s[..5] == "can't";
      assert Alnums("can't") == "cant";
    } else if s != [] {
      AlnumsReplaceCant(s[1..]);
    }
  }

  lemma {:induction false} AlnumsCollapse(s: string)
    ensures Alnums(Collapse(s)) == Alnums(s)
    decreases |s|
  {
    if s == [] {
    } else if IsSpace(s[0]) {
      var t := DropLeadingSpace(s[1..]);
      var k := |s| - 1 - |t|;
      AlnumsCollapse(t);
      assert s == s[..k + 1] + t;
      AlnumsAppend(s[..k + 1], t);
      AlnumsOfSpaces(s[..k + 1]);
    } else {
      AlnumsCollapse(s[1..]);
    }
  }

  lemma AlnumsSplit(s: string, k: nat)
    requires k <= |s|
    requires forall i | 0 <= i < k :: IsSpace(s[i])
    ensures Alnums(s) == Alnums(s[k..])
  {
    assert s == s[..k] + s[k..];
    AlnumsAppend(s[..k], s[k..]);
    AlnumsOfSpaces(s[..k]);
  }

  lemma AlnumsDropLeading(s: string)
    ensures Alnums(DropLeadingSpace(s)) == Alnums(s)
  {
    var a := DropLeadingSpace(s);
    AlnumsSplit(s, |s| - |a|);
  }

  lemma AlnumsDropTrailing(s: string)
    ensures Alnums(DropTrailingSpace(s)) == Alnums(s)
  {
    var b := DropTrailingSpace(s);
    var rest := s[|b|..];
    forall i | 0 <= i < |rest|
      ensures IsSpace(rest[i])
    {
      assert rest[i] == s[|b| + i];
    }
    assert s == b + rest;
    AlnumsAppend(b, rest);
    AlnumsOfSpaces(rest);
  }

  lemma AlnumsStrip(s: string)
    ensures Alnums(Strip(s)) == Alnums(s)
  {
    AlnumsDropLeading(s);
    AlnumsDropTrailing(DropLeadingSpace(s));
  }

  /** Normalisation keeps every letter and digit of the lower-cased text, in
      order, and adds none: only spaces are inserted or removed. */
  lemma PreprocessKeepsAlnums(text: string)
    ensures Alnums(Preprocess(text)) == Alnums(LowerStr(text))
  {
    var l := LowerStr(text);
    var c := ReplaceCant(l);
    var m := MaskPunctuation(c);
    AlnumsReplaceCant(l);
    AlnumsPointwise(c, m);
    AlnumsCollapse(m);
    AlnumsStrip(Collapse(m));
  }

  // ---------------------------------------------------------------------
  // Texts that are already normal
  // ---------------------------------------------------------------------

  /** Once the text is lower-cased and rewritten, a normal text passes the
      remaining steps unchanged. */
  lemma NormalPassesThrough(s: string)
    requires IsNormal(s)
    ensures Strip(Collapse(MaskPunctuation(s))) == s
  {
    MaskIdentity(s);
    CollapseIdentity(s);
    StripIdentity(s);
  }

  lemma MaskIdentity(s: string)
    requires forall i | 0 <= i < |s| :: InAlphabet(s[i])
    ensures MaskPunctuation(s) == s
  {
  }

  lemma StripIdentity(s: string)
    requires |s| > 0 ==> InAlphabet(s[0]) && s[0] != ' '
    requires |s| > 0 ==> InAlphabet(s[|s| - 1]) && s[|s| - 1] != ' '
    ensures Strip(s) == s
  {
  }

  lemma AppendSpaceSingleSpaced(s: string)
    requires IsNormal(s)
    ensures SingleSpaced(s + " ")
  {
    var t := s + " ";
    forall i | 0 <= i < |t|
      ensures InAlphabet(t[i])
    {
      if i < |s| {
        assert t[i] == s[i];
      }
    }
    forall i | 0 <= i < |t| - 1
      ensures !(t[i] == ' ' && t[i + 1] == ' ')
    {
      if i + 1 < |s| {
        assert t[i] == s[i] && t[i + 1] == s[i + 1];
      } else {
        assert t[i] == s[|s| - 1];
      }
    }
  }

  lemma StripAppendedSpace(s: string)
    requires IsNormal(s) && |s| > 0
    ensures Strip(s + " ") == s
  {
    var t := s + " ";
    assert t[0] == s[0];
    assert DropLeadingSpace(t) == t;
    assert t[..|t| - 1] == s;
    assert DropTrailingSpace(t) == DropTrailingSpace(s);
    assert DropTrailingSpace(s) == s;
  }

  lemma CollapseTrailingSpace(s: string)
    requires IsNormal(s) && |s| > 0
    ensures Strip(Collapse(s + " ")) == s
  {
    AppendSpaceSingleSpaced(s);
    CollapseIdentity(s + " ");
    StripAppendedSpace(s);
  }
}
