// What stands between the parts of a screen: sections, dividers and blockquotes (src/ui/design-system.ts:62-71,119-142).
module MessageLayout {
  import opened MessageText
  import opened MessageThinning
  import opened MessageQuotes
  import opened MessagePolish
  import opened MessageScreens
  import opened MessageExact

  // ---------------------------------------------------------------- sections

  /** A section without blockquotes and blocks that needs no polishing. */
  ghost predicate Clean(s: string) {
    && s != "" && !IsSpace(s[0]) && EndsInInk(s) && LinesTight(s) && NoTriple(s)
    && !Has(s, OPEN) && !Has(s, PRE)
  }

  lemma {:induction false} NoBlocks(s: string)
    requires !Has(s, PRE)
    ensures !HasBlock(s)
  {
    if s != "" {
      NoBlocks(s[1..]);
    }
  }

  lemma CleanIsFixed(s: string)
    requires Clean(s)
    ensures PolishMessageText(s) == s && Trim(s) == s
  {
    NoQuotes(s);
    NoBlocks(s);
    PlainSplit(s);
    StableFixed(s);
    TrimEndFixed(s);
    hide HasBlock, PolishPart, TrimEnd;
  }

  lemma {:induction false} HasAcross(a: string, b: string, w: string)
    requires w != "" && forall i | 0 <= i < |w| :: w[i] != '\n'
    requires !Has(a, w) && !Has(b, w)
    ensures !Has(a + "\n\n" + b, w)
    decreases |a|
  {
    var s := a + "\n\n" + b;
    AtAcross(a, b, w);
    if a == "" {
      NewlineHas("\n" + b, w);
      NewlineHas(b, w);
      assert s == "\n" + ("\n" + b);
    } else {
      Tail3(a, "\n\n", b);
      HasAcross(a[1..], b, w);
    }
  }

  lemma AtAcross(a: string, b: string, w: string)
    requires w != "" && forall i | 0 <= i < |w| :: w[i] != '\n'
    ensures At(a + "\n\n" + b, w) ==> At(a, w)
  {
    var s := a + "\n\n" + b;
    assert s[|a|] == '\n' == Lower(s[|a|]);
    assert forall i | 0 <= i < |a| :: s[i] == a[i];
  }

  lemma NewlineHas(b: string, w: string)
    requires w != "" && w[0] != '\n'
    ensures Has("\n" + b, w) <==> Has(b, w)
  {
    assert ("\n" + b)[1..] == b;
    AtHead("\n" + b, w);
  }

  lemma {:induction false} TightAcross(a: string, b: string)
    requires a != "" && LinesTight(a) && EndsInInk(a) && LinesTight(b) && b != "" && !IsSpace(b[0])
    ensures LinesTight(a + "\n\n" + b)
  {
    var s := a + "\n\n" + b;
    Tail3(a, "\n\n", b);
    if |a| == 1 {
      assert s[1..] == "\n" + ("\n" + b);
      assert ("\n" + ("\n" + b))[1..] == "\n" + b && ("\n" + b)[1..] == b;
    } else {
      TightAcross(a[1..], b);
      assert s[1] == a[1];
    }
  }

  lemma {:induction false} NoTripleAcross(a: string, b: string)
    requires a != "" && NoTriple(a) && EndsInInk(a) && NoTriple(b) && b != "" && !IsSpace(b[0])
    ensures NoTriple(a + "\n\n" + b)
  {
    var s := a + "\n\n" + b;
    Tail3(a, "\n\n", b);
    if |a| == 1 {
      assert s[1..] == "\n" + ("\n" + b);
      assert ("\n" + ("\n" + b))[1..] == "\n" + b && ("\n" + b)[1..] == b;
    } else {
      NoTripleAcross(a[1..], b);
      assert s[1] == a[1] && (|a| > 2 ==> s[2] == a[2]) && !IsSpace(a[|a| - 1]);
    }
  }

  lemma CleanJoins(a: string, b: string)
    requires Clean(a) && Clean(b)
    ensures Clean(a + "\n\n" + b)
  {
    HasAcross(a, b, OPEN);
    HasAcross(a, b, PRE);
    TightAcross(a, b);
    NoTripleAcross(a, b);
    hide Has, LinesTight, NoTriple;
  }

  /** Two texts with an empty line in between, when there are two. */
  function Glued(a: string, b: string): string {
    if a == "" then b else if b == "" then a else a + "\n\n" + b
  }

  lemma {:induction false} JoinedIsClean(sections: seq<string>)
    requires forall x :: x in sections ==> Trim(x) == "" || Clean(Trim(x))
    ensures JoinNonEmpty(sections) == "" || Clean(JoinNonEmpty(sections))
  {
    hide Clean, Trim;
    if sections != [] {
      assert sections[0] in sections;
      JoinedIsClean(sections[1..]);
      var head, tail := Trim(sections[0]), JoinNonEmpty(sections[1..]);
      if head != "" && tail != "" {
        CleanJoins(head, tail);
      }
    }
  }

  lemma JoinIsJoined(sections: seq<string>)
    requires forall x :: x in sections ==> Trim(x) == "" || Clean(Trim(x))
    ensures JoinScreenSections(sections) == JoinNonEmpty(sections)
  {
    JoinedIsClean(sections);
    if JoinNonEmpty(sections) != "" {
      CleanIsFixed(JoinNonEmpty(sections));
    }
    hide Clean, Trim, JoinNonEmpty;
  }

  /**
   * `joinScreenSections` of sections that are clean behind trimming puts one empty line between two sections that say something,
   * leaves empty ones out, and changes nothing else.
   */
  lemma JoinsExactly(sections: seq<string>, x: string)
    requires forall y :: y in [x] + sections ==> Trim(y) == "" || Clean(Trim(y))
    ensures JoinScreenSections([]) == ""
    ensures JoinScreenSections([x] + sections) == Glued(Trim(x), JoinScreenSections(sections))
  {
    assert forall y :: y in sections ==> y in [x] + sections;
    hide Clean, Trim;
    JoinIsJoined(sections);
    JoinIsJoined([x] + sections);
    assert ([x] + sections)[1..] == sections;
  }

  // ---------------------------------------------------------------- the divider of a screen

  lemma DividerIsClean()
    ensures Clean(DIVIDER)
  {
    assert !IsSpace('─');
    DashesTight(DIVIDER);
    DashesHave(DIVIDER, OPEN);
    DashesHave(DIVIDER, PRE);
  }

  lemma {:induction false} DashesTight(s: string)
    requires forall i | 0 <= i < |s| :: s[i] == '─'
    ensures LinesTight(s) && NoTriple(s)
  {
    if s != "" {
      DashesTight(s[1..]);
    }
  }

  lemma {:induction false} DashesHave(s: string, w: string)
    requires forall i | 0 <= i < |s| :: s[i] == '─'
    requires w != "" && w[0] == '<'
    ensures !Has(s, w)
  {
    if s != "" {
      AtHead(s, w);
      DashesHave(s[1..], w);
    }
  }

  /** `premiumScreen` of a clean text: the text, and behind it, when it has no divider, an empty line and the divider. */
  lemma PremiumExactly(content: string)
    requires Clean(Trim(content))
    ensures PremiumScreen(content)
            == if HasPremiumStructure(Trim(content)) then Trim(content) else Trim(content) + "\n\n" + DIVIDER
  {
    var trimmed := Trim(content);
    DividerIsClean();
    CleanJoins(trimmed, DIVIDER);
    hide Clean, Trim, HasPremiumStructure;
    CleanIsFixed(trimmed);
    CleanIsFixed(trimmed + "\n\n" + DIVIDER);
    assert trimmed != "" by { CleanSays(trimmed); }
  }

  lemma CleanSays(s: string)
    requires Clean(s)
    ensures s != ""
  {
  }
}
