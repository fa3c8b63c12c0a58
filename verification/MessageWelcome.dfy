// What `polishWelcomeLayout` (src/ui/design-system.ts:62-71) guarantees about the dividers and blockquotes of its result.
module MessageWelcome {
  import opened MessageText
  import opened MessageThinning
  import opened MessageQuotes

  // ---------------------------------------------------------------- dividers

  /** What stands in front: an opening tag, two line feeds or more, one, or something else. */
  datatype Front = Tag | Two | One | Other

  function BehindNewline(f: Front): Front {
    if f.One? || f.Two? then Two else One
  }

  /** The message ends, or two line feeds or a closing tag follow. */
  predicate EndsWell(s: string) {
    s == "" || "\n\n" <= s || CLOSE <= s
  }

  /**
   * Reading on behind `f`, every divider stands behind two line feeds or directly behind an opening tag, and in front of two line
   * feeds, a closing tag or the end.
   */
  ghost predicate Placed(s: string, f: Front)
    decreases |s|
  {
    if s == "" then true
    else if DIVIDER <= s then (f.Two? || f.Tag?) && EndsWell(s[|DIVIDER|..]) && Placed(s[|DIVIDER|..], Other)
    else if OPEN <= s then Placed(s[|OPEN|..], Tag)
    else Placed(s[1..], if s[0] == '\n' then BehindNewline(f) else Other)
  }

  lemma Heads()
    ensures |DIVIDER| == 15 && DIVIDER[0] == '─' && |OPEN| == 12 && OPEN[0] == '<' && |CLOSE| == 13 && CLOSE[0] == '<'
    ensures OPEN[1] == 'b' && CLOSE[1] == '/' && !IsSpace('─') && !IsSpace('<')
    ensures forall i | 0 <= i < |DIVIDER| :: DIVIDER[i] == '─'
  {
  }

  /** Better fronts do no harm. */
  predicate Worse(f: Front, g: Front) {
    f == g || f.Other? || (f.One? && g.Two?)
  }

  lemma {:induction false} PlacedBetter(s: string, f: Front, g: Front)
    requires Placed(s, f) && Worse(f, g)
    ensures Placed(s, g)
    decreases |s|
  {
    if s != "" && !(DIVIDER <= s) && !(OPEN <= s) && s[0] == '\n' {
      PlacedBetter(s[1..], BehindNewline(f), BehindNewline(g));
    }
  }

  /** What stands in front does not matter to a text that begins with neither a divider nor a line feed, or with two line feeds. */
  lemma PlacedAnyway(s: string, f: Front, g: Front)
    requires s == "" || "\n\n" <= s || (s[0] != '\n' && !(DIVIDER <= s))
    requires Placed(s, f)
    ensures Placed(s, g)
  {
    Heads();
    if "\n\n" <= s {
      assert s[0] == '\n' && s[1] == '\n' && s[1..][0] == '\n' && s[1..][1..] == s[2..];
      assert Placed(s[2..], Two);
      assert Placed(s[1..], BehindNewline(g));
    }
  }

  lemma PlacedBehindTag(s: string, f: Front)
    requires s == "" || s[0] != '\n'
    requires Placed(s, f)
    ensures Placed(s, Tag)
  {
  }

  // ---------------------------------------------------------------- copying

  predicate IsPlainWord(w: string) {
    forall i | 0 <= i < |w| :: w[i] != '<' && w[i] != '─' && w[i] != '\n' && !IsSpace(w[i])
  }

  /** A word without the front of a tag, a dash or white space is passed over. */
  lemma {:induction false} PlacedSkips(w: string, s: string)
    requires IsPlainWord(w) && Placed(w + s, Other)
    ensures Placed(s, Other)
    decreases |w|
  {
    Heads();
    if w == "" {
      assert w + s == s;
    } else {
      Tail2(w, s);
      PlacedSkips(w[1..], s);
    }
  }

  lemma OpenWord()
    ensures IsPlainWord(OPEN[1..]) && OPEN == "<" + OPEN[1..]
    ensures IsPlainWord(CLOSE[1..]) && CLOSE == "<" + CLOSE[1..]
  {
  }

  lemma HeadWord(w: string, s: string)
    requires w != ""
    ensures w <= s <==> s != "" && s[0] == w[0] && w[1..] <= s[1..]
  {
    if s != "" && s[0] == w[0] && w[1..] <= s[1..] {
      assert s == [s[0]] + s[1..] && w == [w[0]] + w[1..];
    }
  }

  lemma TagPlaced(s: string, f: Front)
    requires Placed(s, Tag)
    ensures Placed(OPEN + s, f)
  {
    Heads();
    assert (OPEN + s)[|OPEN|..] == s;
    assert (OPEN + s)[0] == '<';
  }

  lemma DividerPlaced(s: string, f: Front)
    requires f.Two? || f.Tag?
    requires Placed(s, Other) && EndsWell(s)
    ensures Placed(DIVIDER + s, f)
  {
    Heads();
    assert (DIVIDER + s)[|DIVIDER|..] == s;
  }

  lemma Placing(s: string, f: Front)
    requires Placed(s, Other)
    ensures Placed("\n\n" + DIVIDER + "\n\n" + s, f)
  {
    var b := "\n" + ("\n" + s);
    assert b == "\n\n" + s;
    PlacedBetter(s, Other, Two);
    PlacedNewlines(s, Other);
    hide Placed;
    DividerPlaced(b, Two);
    PlacedNewlines(DIVIDER + b, f);
    assert "\n" + ("\n" + (DIVIDER + b)) == "\n\n" + DIVIDER + "\n\n" + s;
  }

  lemma PlacedNewlines(d: string, f: Front)
    requires Placed(d, Two)
    ensures Placed("\n" + ("\n" + d), f)
  {
    Heads();
    var e := "\n" + d;
    var y := "\n" + e;
    assert e[1..] == d && y[1..] == e;
    assert Placed(e, BehindNewline(f));
  }

  // ---------------------------------------------------------------- the pass that places dividers

  lemma DividerAt(s: string)
    ensures At(s, DIVIDER) <==> DIVIDER <= s
  {
    Heads();
    assert forall c :: Lower(c) == '─' <==> c == '─';
  }

  lemma SpacedFront(s: string)
    ensures SpaceDividers(s) != "" ==> s != ""
    ensures SpaceDividers(s) != "" && SpaceDividers(s)[0] != '\n' ==>
              !At(AfterNewlines(s), DIVIDER) && SpaceDividers(s) == [s[0]] + SpaceDividers(s[1..])
  {
    hide At, AfterNewlines;
  }

  lemma {:induction false} DashesWereThere(s: string, w: string)
    requires (forall i | 0 <= i < |w| :: w[i] == '─') && w <= SpaceDividers(s)
    ensures w <= s
    decreases |w|
  {
    if w != "" {
      SpacedFront(s);
      HeadWord(w, SpaceDividers(s));
      DashesWereThere(s[1..], w[1..]);
      HeadWord(w, s);
    }
  }

  lemma {:induction false} DividersArePlaced(s: string)
    ensures Placed(SpaceDividers(s), Other)
    decreases |s|
  {
    if s != "" {
      if At(AfterNewlines(s), DIVIDER) {
        var r := AfterNewlines(AfterNewlines(s)[|DIVIDER|..]);
        DividersArePlaced(r);
        Placing(SpaceDividers(r), Other);
      } else {
        DividersArePlaced(s[1..]);
        CopiedIsPlaced(s);
      }
    }
  }

  lemma CopiedIsPlaced(s: string)
    requires s != "" && !At(AfterNewlines(s), DIVIDER) && Placed(SpaceDividers(s[1..]), Other)
    ensures Placed(SpaceDividers(s), Other)
  {
    NoDividerInFront(s);
    PushPlaced(s[0], SpaceDividers(s[1..]));
    hide *;
  }

  lemma NoDividerInFront(s: string)
    ensures s != "" && !At(AfterNewlines(s), DIVIDER) ==> SpaceDividers(s) == [s[0]] + SpaceDividers(s[1..])
    ensures !(DIVIDER <= SpaceDividers(s))
  {
    if DIVIDER <= SpaceDividers(s) {
      Heads();
      DashesWereThere(s, DIVIDER);
      DividerAt(s);
      SpacedFront(s);
    }
  }

  lemma PushPlaced(c: char, z: string)
    requires Placed(z, Other) && !(DIVIDER <= [c] + z)
    ensures Placed([c] + z, Other)
  {
    var y := [c] + z;
    assert y[1..] == z;
    if OPEN <= y {
      PlacedBehindOpen(c, z);
    } else {
      PlacedBetter(z, Other, if c == '\n' then One else Other);
    }
  }

  lemma PlacedBehindOpen(c: char, z: string)
    requires Placed(z, Other) && OPEN <= [c] + z
    ensures Placed(([c] + z)[|OPEN|..], Tag)
  {
    hide Placed;
    var y := [c] + z;
    var r := y[|OPEN|..];
    OpenWord();
    HeadWord(OPEN, y);
    assert y[1..] == z && z == OPEN[1..] + r by {
      assert OPEN[1..] <= z && |OPEN| == 12;
      assert z[11..] == r;
    }
    PlacedSkips(OPEN[1..], r);
    PlacedBetter(r, Other, Tag);
  }

  // ---------------------------------------------------------------- white space behind opening tags

  lemma TightenedFront(s: string)
    ensures TightenOpen(s) != "" ==> s != ""
    ensures TightenOpen(s) != "" && TightenOpen(s)[0] != '<' ==> TightenOpen(s) == [s[0]] + TightenOpen(s[1..])
  {
    hide TrimStart;
    assert OPEN[0] == '<';
  }

  lemma OpenCopiesOne(s: string)
    requires s != "" && s[0] != '<'
    ensures TightenOpen(s) == [s[0]] + TightenOpen(s[1..])
  {
    hide TrimStart;
    assert OPEN[0] == '<';
  }

  lemma {:induction false} OpenWordBack(s: string, w: string)
    requires (forall i | 0 <= i < |w| :: w[i] != '<') && w <= TightenOpen(s)
    ensures w <= s
    decreases |w|
  {
    Heads();
    if w != "" {
      TightenedFront(s);
      HeadWord(w, TightenOpen(s));
      OpenWordBack(s[1..], w[1..]);
      HeadWord(w, s);
    }
  }

  lemma {:induction false} OpenCopies(w: string, s: string)
    requires forall i | 0 <= i < |w| :: w[i] != '<'
    ensures TightenOpen(w + s) == w + TightenOpen(s)
    decreases |w|
  {
    hide TightenOpen;
    if w == "" {
      assert w + s == s;
    } else {
      Tail2(w, s);
      OpenCopiesOne(w + s);
      OpenCopies(w[1..], s);
      HeadTail(w);
    }
  }

  lemma OpenCopiesClose(s: string)
    ensures TightenOpen(CLOSE + s) == CLOSE + TightenOpen(s)
  {
    Heads();
    OpenWord();
    var r := CLOSE[1..] + s;
    assert CLOSE + s == "<" + r && (CLOSE + s)[1..] == r && (CLOSE + s)[1] == '/';
    OpenCopies(CLOSE[1..], s);
  }

  lemma OpenEndsWell(s: string)
    requires EndsWell(s)
    ensures EndsWell(TightenOpen(s))
  {
    Heads();
    if "\n\n" <= s {
      assert s == "\n\n" + s[2..];
      OpenCopies("\n\n", s[2..]);
    } else if CLOSE <= s {
      assert s == CLOSE + s[|CLOSE|..];
      OpenCopiesClose(s[|CLOSE|..]);
    }
  }

  lemma {:induction false} PlacedTrimStart(s: string, f: Front)
    requires Placed(s, f)
    ensures Placed(TrimStart(s), Tag)
    decreases |s|
  {
    Heads();
    if s != "" && IsSpace(s[0]) {
      PlacedTrimStart(s[1..], if s[0] == '\n' then BehindNewline(f) else Other);
    } else {
      PlacedBehindTag(s, f);
    }
  }

  lemma {:induction false} OpenKeepsPlaced(s: string, f: Front)
    requires Placed(s, f)
    ensures Placed(TightenOpen(s), f)
    decreases |s|
  {
    Heads();
    if s == "" {
    } else if DIVIDER <= s {
      var z := s[|DIVIDER|..];
      assert s == DIVIDER + z;
      OpenKeepsPlaced(z, Other);
      OpenCopies(DIVIDER, z);
      OpenEndsWell(z);
      DividerPlaced(TightenOpen(z), f);
    } else if OPEN <= s {
      var z := s[|OPEN|..];
      PlacedTrimStart(z, Tag);
      OpenKeepsPlaced(TrimStart(z), Tag);
      TagPlaced(TightenOpen(TrimStart(z)), f);
    } else {
      var y := TightenOpen(s);
      var g := if s[0] == '\n' then BehindNewline(f) else Other;
      assert y[1..] == TightenOpen(s[1..]);
      OpenKeepsPlaced(s[1..], g);
      assert !(DIVIDER <= y) by {
        if DIVIDER <= y { OpenWordBack(s, DIVIDER); }
      }
      assert !(OPEN <= y) by {
        if OPEN <= y { OpenWasThere(s); }
      }
    }
  }

  lemma OpenWasThere(s: string)
    requires s != "" && OPEN <= TightenOpen(s)
    ensures OPEN <= s
  {
    if !(OPEN <= s) {
      OpenWord();
      assert TightenOpen(s)[1..] == TightenOpen(s[1..]);
      HeadWord(OPEN, TightenOpen(s));
      OpenWordBack(s[1..], OPEN[1..]);
      HeadWord(OPEN, s);
    }
  }

  // ---------------------------------------------------------------- white space in front of closing tags

  predicate ClosedAhead(s: string) {
    s != "" && IsSpace(s[0]) && CLOSE <= TrimStart(s)
  }

  lemma AheadTail(s: string)
    requires s != "" && IsSpace(s[0])
    ensures ClosedAhead(s) <==> CLOSE <= s[1..] || ClosedAhead(s[1..])
  {
    Heads();
    hide IsSpace;
    var r := s[1..];
    assert TrimStart(s) == TrimStart(r);
    if CLOSE <= r {
      assert TrimStart(r) == r;
    }
    if r == "" || !IsSpace(r[0]) {
      assert TrimStart(r) == r;
    }
  }

  lemma CloseStep(s: string)
    requires s != ""
    ensures ClosedAhead(s) ==> TightenClose(s) == TightenClose(s[1..]) && (CLOSE <= s[1..] || ClosedAhead(s[1..]))
    ensures !ClosedAhead(s) ==> TightenClose(s) == [s[0]] + TightenClose(s[1..])
  {
    hide IsSpace, TrimStart;
    if IsSpace(s[0]) {
      AheadTail(s);
    }
  }

  lemma {:induction false} CloseCopies(w: string, s: string)
    requires forall i | 0 <= i < |w| :: !IsSpace(w[i])
    ensures TightenClose(w + s) == w + TightenClose(s)
    decreases |w|
  {
    if w == "" {
      assert w + s == s;
    } else {
      Tail2(w, s);
      CloseStep(w + s);
      hide TightenClose;
      CloseCopies(w[1..], s);
      HeadTail(w);
    }
  }

  lemma CloseTagCopied(s: string)
    requires CLOSE <= s
    ensures CLOSE <= TightenClose(s)
  {
    Heads();
    OpenWord();
    assert s == CLOSE + s[|CLOSE|..];
    assert forall i | 0 <= i < |CLOSE| :: !IsSpace(CLOSE[i]) by {
      forall i | 0 <= i < |CLOSE| ensures !IsSpace(CLOSE[i]) {
        if i > 0 { assert CLOSE[i] == CLOSE[1..][i - 1]; }
      }
    }
    hide IsSpace;
    CloseCopies(CLOSE, s[|CLOSE|..]);
  }

  lemma {:induction false} DroppedToClose(s: string)
    requires ClosedAhead(s)
    ensures CLOSE <= TightenClose(s)
  {
    CloseStep(s);
    if CLOSE <= s[1..] {
      CloseTagCopied(s[1..]);
    } else {
      DroppedToClose(s[1..]);
    }
  }

  lemma {:induction false} CloseWordBack(s: string, w: string)
    requires (forall i | 0 <= i < |w| :: w[i] != '<' && !IsSpace(w[i])) && w <= TightenClose(s)
    ensures w <= s
    decreases |w|
  {
    Heads();
    if w != "" {
      HeadWord(w, TightenClose(s));
      CloseStep(s);
      if ClosedAhead(s) {
        DroppedToClose(s);
      } else {
        hide TightenClose;
        CloseWordBack(s[1..], w[1..]);
        HeadWord(w, s);
      }
    }
  }

  /** A tag that is there behind the pass was there before, at the front or behind white space that went. */
  lemma TagWasAhead(s: string, t: string)
    requires (t == OPEN || t == CLOSE) && t <= TightenClose(s) && s != ""
    ensures t <= s || (t == CLOSE && ClosedAhead(s))
  {
    Heads();
    OpenWord();
    CloseStep(s);
    HeadWord(t, TightenClose(s));
    if ClosedAhead(s) {
      DroppedToClose(s);
      HeadWord(CLOSE, TightenClose(s));
    } else {
      hide TightenClose;
      CloseWordBack(s[1..], t[1..]);
      HeadWord(t, s);
    }
  }

  lemma CloseEndsWell(s: string)
    requires EndsWell(s)
    ensures EndsWell(TightenClose(s))
  {
    Heads();
    if "\n\n" <= s {
      CloseStep(s);
      CloseStep(s[1..]);
      if ClosedAhead(s) {
        DroppedToClose(s);
      } else {
        assert s[1..] != "" && s[0] == '\n' && s[1] == '\n';
        assert TrimStart(s[1..]) == TrimStart(s);
        assert TightenClose(s) == ['\n'] + (['\n'] + TightenClose(s[1..][1..]));
      }
    } else if CLOSE <= s {
      CloseTagCopied(s);
    }
  }

  lemma {:induction false} CloseKeepsPlaced(s: string, f: Front)
    requires Placed(s, f)
    ensures Placed(TightenClose(s), f)
    decreases |s|
  {
    Heads();
    hide TightenClose;
    if s == "" {
      assert TightenClose(s) == "" by { NothingToClose(); }
    } else if DIVIDER <= s {
      var z := s[|DIVIDER|..];
      assert s == DIVIDER + z;
      CloseKeepsPlaced(z, Other);
      CloseCopies(DIVIDER, z);
      CloseEndsWell(z);
      DividerPlaced(TightenClose(z), f);
    } else if OPEN <= s {
      var z := s[|OPEN|..];
      assert s == OPEN + z;
      CloseKeepsPlaced(z, Tag);
      OpenHasNoSpace();
      CloseCopies(OPEN, z);
      TagPlaced(TightenClose(z), f);
    } else {
      CloseKeepsPlaced(s[1..], if s[0] == '\n' then BehindNewline(f) else Other);
      ClosePushed(s, f);
    }
  }

  lemma NothingToClose()
    ensures TightenClose("") == ""
  {
  }

  lemma OpenHasNoSpace()
    ensures forall i | 0 <= i < |OPEN| :: !IsSpace(OPEN[i])
  {
    Heads();
    OpenWord();
    forall i | 0 <= i < |OPEN| ensures !IsSpace(OPEN[i]) {
      if i > 0 { assert OPEN[i] == OPEN[1..][i - 1]; }
    }
  }

  lemma ClosePushed(s: string, f: Front)
    requires s != "" && !(DIVIDER <= s) && !(OPEN <= s)
    requires Placed(TightenClose(s[1..]), if s[0] == '\n' then BehindNewline(f) else Other)
    ensures Placed(TightenClose(s), f)
  {
    Heads();
    var y := TightenClose(s);
    CloseStep(s);
    if ClosedAhead(s) {
      DroppedToClose(s);
      PlacedAnyway(y, if s[0] == '\n' then BehindNewline(f) else Other, f);
    } else {
      hide TightenClose;
      assert !(DIVIDER <= y) by {
        if DIVIDER <= y { CloseWordBack(s, DIVIDER); }
      }
      assert !(OPEN <= y) by {
        if OPEN <= y { TagWasAhead(s, OPEN); }
      }
      assert y[1..] == TightenClose(s[1..]);
    }
  }

  // ---------------------------------------------------------------- runs of line feeds

  predicate FourNewlines(s: string) {
    |s| >= 4 && s[0] == '\n' && StartsTripleNewline(s[1..])
  }

  lemma ThreeStep(s: string)
    requires s != ""
    ensures FourNewlines(s) ==> CollapseToThree(s) == CollapseToThree(s[1..])
    ensures !FourNewlines(s) ==> CollapseToThree(s) == [s[0]] + CollapseToThree(s[1..])
  {
  }

  lemma FourEarlier(s: string)
    requires s != "" && s[0] == '\n'
    ensures s[1..] != "" && FourNewlines(s[1..]) ==> FourNewlines(s)
  {
    if s[1..] != "" && FourNewlines(s[1..]) {
      assert s[1..][0] == s[1] && s[1..][1] == s[2] && s[1..][2] == s[3];
    }
  }

  lemma {:induction false} TwoStay(s: string)
    requires "\n\n" <= s
    ensures "\n\n" <= CollapseToThree(s)
    decreases |s|
  {
    ThreeStep(s);
    assert s[0] == '\n' && s[1] == '\n';
    if FourNewlines(s) {
      assert s[1..][0] == '\n' && s[1..][1] == '\n';
      TwoStay(s[1..]);
    } else {
      ThreeStep(s[1..]);
      FourEarlier(s);
      assert CollapseToThree(s) == ['\n'] + (['\n'] + CollapseToThree(s[1..][1..]));
    }
  }

  lemma {:induction false} ThreeWordBack(s: string, w: string)
    requires (forall i | 0 <= i < |w| :: w[i] != '\n') && w <= CollapseToThree(s)
    ensures w <= s
    decreases |w|
  {
    if w != "" {
      HeadWord(w, CollapseToThree(s));
      ThreeStep(s);
      if FourNewlines(s) {
        TwoStay(s);
      } else {
        hide CollapseToThree;
        ThreeWordBack(s[1..], w[1..]);
        HeadWord(w, s);
      }
    }
  }

  lemma {:induction false} ThreeCopies(w: string, s: string)
    requires forall i | 0 <= i < |w| :: w[i] != '\n'
    ensures CollapseToThree(w + s) == w + CollapseToThree(s)
    decreases |w|
  {
    if w == "" {
      assert w + s == s;
    } else {
      Tail2(w, s);
      ThreeStep(w + s);
      hide CollapseToThree;
      ThreeCopies(w[1..], s);
      HeadTail(w);
    }
  }

  lemma NoNewlineInTags()
    ensures forall i | 0 <= i < |OPEN| :: OPEN[i] != '\n'
    ensures forall i | 0 <= i < |CLOSE| :: CLOSE[i] != '\n'
    ensures forall i | 0 <= i < |DIVIDER| :: DIVIDER[i] != '\n'
  {
    Heads();
  }

  lemma ThreeEndsWell(s: string)
    requires EndsWell(s)
    ensures EndsWell(CollapseToThree(s))
  {
    if "\n\n" <= s {
      TwoStay(s);
    } else if CLOSE <= s {
      NoNewlineInTags();
      assert s == CLOSE + s[|CLOSE|..];
      ThreeCopies(CLOSE, s[|CLOSE|..]);
    }
  }

  lemma {:induction false} ThreeKeepsPlaced(s: string, f: Front)
    requires Placed(s, f)
    ensures Placed(CollapseToThree(s), f)
    decreases |s|
  {
    Heads();
    NoNewlineInTags();
    if s == "" {
    } else if DIVIDER <= s {
      hide CollapseToThree;
      var z := s[|DIVIDER|..];
      assert s == DIVIDER + z;
      ThreeKeepsPlaced(z, Other);
      ThreeCopies(DIVIDER, z);
      ThreeEndsWell(z);
      DividerPlaced(CollapseToThree(z), f);
    } else if OPEN <= s {
      hide CollapseToThree;
      var z := s[|OPEN|..];
      assert s == OPEN + z;
      ThreeKeepsPlaced(z, Tag);
      ThreeCopies(OPEN, z);
      TagPlaced(CollapseToThree(z), f);
    } else {
      hide CollapseToThree;
      ThreeKeepsPlaced(s[1..], if s[0] == '\n' then BehindNewline(f) else Other);
      ThreePushed(s, f);
    }
  }

  lemma ThreePushed(s: string, f: Front)
    requires s != "" && !(DIVIDER <= s) && !(OPEN <= s)
    requires Placed(CollapseToThree(s[1..]), if s[0] == '\n' then BehindNewline(f) else Other)
    ensures Placed(CollapseToThree(s), f)
  {
    NoNewlineInTags();
    var y := CollapseToThree(s);
    ThreeStep(s);
    if FourNewlines(s) {
      TwoStay(s[1..]);
      PlacedAnyway(y, BehindNewline(f), f);
    } else {
      hide CollapseToThree;
      assert !(DIVIDER <= y) by {
        if DIVIDER <= y { ThreeWordBack(s, DIVIDER); }
      }
      assert !(OPEN <= y) by {
        if OPEN <= y { ThreeWordBack(s, OPEN); }
      }
      assert y[1..] == CollapseToThree(s[1..]);
    }
  }

  // ---------------------------------------------------------------- the end of the message

  lemma TrimStep(s: string)
    requires s != ""
    ensures AllSpace(s) ==> TrimEnd(s) == ""
    ensures !AllSpace(s) ==> TrimEnd(s) == [s[0]] + TrimEnd(s[1..])
  {
  }

  lemma {:induction false} TrimCopies(w: string, s: string)
    requires forall i | 0 <= i < |w| :: !IsSpace(w[i])
    ensures TrimEnd(w + s) == w + TrimEnd(s)
    decreases |w|
  {
    if w == "" {
      assert w + s == s;
    } else {
      Tail2(w, s);
      TrimStep(w + s);
      TrimCopies(w[1..], s);
      HeadTail(w);
    }
  }

  lemma TrimEndsWell(s: string)
    requires EndsWell(s)
    ensures EndsWell(TrimEnd(s))
  {
    if "\n\n" <= s {
      TrimStep(s);
      TrimStep(s[1..]);
      AllSpaceTail(s);
      assert s[0] == '\n' && s[1] == '\n';
      if !AllSpace(s) {
        AllSpaceTail(s[1..]);
        assert TrimEnd(s) == ['\n'] + (['\n'] + TrimEnd(s[1..][1..]));
      }
    } else if CLOSE <= s {
      CloseHasNoSpace();
      assert s == CLOSE + s[|CLOSE|..];
      TrimCopies(CLOSE, s[|CLOSE|..]);
    }
  }

  lemma CloseHasNoSpace()
    ensures forall i | 0 <= i < |CLOSE| :: !IsSpace(CLOSE[i])
  {
    Heads();
    OpenWord();
    forall i | 0 <= i < |CLOSE| ensures !IsSpace(CLOSE[i]) {
      if i > 0 { assert CLOSE[i] == CLOSE[1..][i - 1]; }
    }
  }

  lemma {:induction false} TrimKeepsPlaced(s: string, f: Front)
    requires Placed(s, f)
    ensures Placed(TrimEnd(s), f)
    decreases |s|
  {
    Heads();
    if s == "" || AllSpace(s) {
    } else if DIVIDER <= s {
      hide TrimEnd, AllSpace;
      var z := s[|DIVIDER|..];
      assert s == DIVIDER + z;
      TrimKeepsPlaced(z, Other);
      TrimCopies(DIVIDER, z);
      TrimEndsWell(z);
      DividerPlaced(TrimEnd(z), f);
    } else if OPEN <= s {
      hide TrimEnd, AllSpace;
      var z := s[|OPEN|..];
      assert s == OPEN + z;
      TrimKeepsPlaced(z, Tag);
      OpenHasNoSpace();
      TrimCopies(OPEN, z);
      TagPlaced(TrimEnd(z), f);
    } else {
      hide TrimEnd;
      TrimKeepsPlaced(s[1..], if s[0] == '\n' then BehindNewline(f) else Other);
      TrimPushed(s, f);
    }
  }

  lemma TrimPushed(s: string, f: Front)
    requires s != "" && !AllSpace(s) && !(DIVIDER <= s) && !(OPEN <= s)
    requires Placed(TrimEnd(s[1..]), if s[0] == '\n' then BehindNewline(f) else Other)
    ensures Placed(TrimEnd(s), f)
  {
    var y := TrimEnd(s);
    TrimStep(s);
    TrimEndShape(s);
    hide TrimEnd;
    assert !(DIVIDER <= y) by {
      if DIVIDER <= y { PrefixTrans(DIVIDER, y, s); }
    }
    assert !(OPEN <= y) by {
      if OPEN <= y { PrefixTrans(OPEN, y, s); }
    }
    assert y[1..] == TrimEnd(s[1..]);
  }

  lemma PrefixTrans(a: string, b: string, c: string)
    requires a <= b <= c
    ensures a <= c
  {
  }

  /** In a welcome message every divider has its place. */
  lemma WelcomeDividers(text: string)
    ensures Placed(PolishWelcomeLayout(text), Other)
  {
    var a := StripLineEnds(TrimQuotes(text));
    DividersArePlaced(a);
    OpenKeepsPlaced(SpaceDividers(a), Other);
    CloseKeepsPlaced(TightenOpen(SpaceDividers(a)), Other);
    ThreeKeepsPlaced(TightenClose(TightenOpen(SpaceDividers(a))), Other);
    TrimKeepsPlaced(CollapseToThree(TightenClose(TightenOpen(SpaceDividers(a)))), Other);
    hide *;
    assert PolishWelcomeLayout(text) == TrimEnd(CollapseToThree(TightenClose(TightenOpen(SpaceDividers(a))))) by {
      WelcomeIs(text);
    }
  }

  lemma WelcomeIs(text: string)
    ensures PolishWelcomeLayout(text)
            == TrimEnd(CollapseToThree(TightenClose(TightenOpen(SpaceDividers(StripLineEnds(TrimQuotes(text)))))))
  {
    hide TrimEnd, CollapseToThree, TightenClose, TightenOpen, SpaceDividers, StripLineEnds, TrimQuotes;
  }

  // ---------------------------------------------------------------- blockquotes

  /** No white space behind an opening tag. */
  ghost predicate OpenTight(s: string) {
    s == "" || ((OPEN <= s && |s| > |OPEN| ==> !IsSpace(s[|OPEN|])) && OpenTight(s[1..]))
  }

  /** No white space in front of a closing tag. */
  ghost predicate CloseTight(s: string) {
    s == "" || ((IsSpace(s[0]) ==> !(CLOSE <= s[1..])) && CloseTight(s[1..]))
  }

  lemma {:induction false} OpenTightBehind(w: string, s: string)
    requires (forall i | 0 <= i < |w| :: w[i] != '<') && OpenTight(s)
    ensures OpenTight(w + s)
    decreases |w|
  {
    Heads();
    if w == "" {
      assert w + s == s;
    } else {
      Tail2(w, s);
      OpenTightBehind(w[1..], s);
    }
  }

  lemma TagThenInk(s: string)
    requires OpenTight(s) && (s == "" || !IsSpace(s[0]))
    ensures OpenTight(OPEN + s)
  {
    Heads();
    OpenWord();
    OpenTightBehind(OPEN[1..], s);
    var y := OPEN + s;
    assert y[1..] == OPEN[1..] + s;
    assert |y| > |OPEN| ==> y[|OPEN|] == s[0];
  }

  lemma {:induction false} TrimStartInk(s: string)
    ensures TrimStart(s) != "" ==> !IsSpace(TrimStart(s)[0])
  {
    if s != "" && IsSpace(s[0]) {
      TrimStartInk(s[1..]);
    }
  }

  lemma OpenHead(s: string)
    ensures TightenOpen(s) != "" ==> s != "" && TightenOpen(s)[0] == s[0]
  {
    Heads();
    hide TrimStart;
  }

  lemma {:induction false} OpenIsTight(s: string)
    ensures OpenTight(TightenOpen(s))
    decreases |s|
  {
    Heads();
    if s == "" {
    } else if OPEN <= s {
      var z := TrimStart(s[|OPEN|..]);
      OpenIsTight(z);
      TrimStartInk(s[|OPEN|..]);
      OpenHead(z);
      TagThenInk(TightenOpen(z));
    } else {
      OpenIsTight(s[1..]);
      assert TightenOpen(s)[1..] == TightenOpen(s[1..]);
      assert !(OPEN <= TightenOpen(s)) by {
        if OPEN <= TightenOpen(s) { OpenWasThere(s); }
      }
    }
  }

  lemma CloseHead(s: string)
    requires s == "" || !IsSpace(s[0])
    ensures TightenClose(s) != "" ==> s != "" && TightenClose(s)[0] == s[0]
  {
  }

  lemma {:induction false} CloseKeepsOpen(s: string)
    requires OpenTight(s)
    ensures OpenTight(TightenClose(s))
    decreases |s|
  {
    if s != "" {
      CloseKeepsOpen(s[1..]);
      CloseStep(s);
      if !ClosedAhead(s) {
        assert TightenClose(s)[1..] == TightenClose(s[1..]);
        if OPEN <= TightenClose(s) {
          TagWasAhead(s, OPEN);
          var z := s[|OPEN|..];
          assert s == OPEN + z;
          OpenHasNoSpace();
          CloseCopies(OPEN, z);
          CloseHead(z);
        }
      }
    }
  }

  lemma {:induction false} CloseIsTight(s: string)
    ensures CloseTight(TightenClose(s))
    decreases |s|
  {
    Heads();
    if s != "" {
      CloseIsTight(s[1..]);
      CloseStep(s);
      if !ClosedAhead(s) {
        assert TightenClose(s)[1..] == TightenClose(s[1..]);
        if IsSpace(s[0]) {
          AheadTail(s);
          assert !(CLOSE <= TightenClose(s[1..])) by {
            if CLOSE <= TightenClose(s[1..]) { TagWasAhead(s[1..], CLOSE); }
          }
        }
      }
    }
  }

  lemma {:induction false} ThreeKeepsTight(s: string)
    requires OpenTight(s) && CloseTight(s)
    ensures OpenTight(CollapseToThree(s)) && CloseTight(CollapseToThree(s))
    decreases |s|
  {
    NoNewlineInTags();
    if s != "" {
      ThreeKeepsTight(s[1..]);
      ThreeStep(s);
      if !FourNewlines(s) {
        assert CollapseToThree(s)[1..] == CollapseToThree(s[1..]);
        ThreeOpens(s);
        ThreeCloses(s);
      }
    }
  }

  lemma ThreeOpens(s: string)
    requires s != "" && OpenTight(s)
    ensures OPEN <= CollapseToThree(s) && |CollapseToThree(s)| > |OPEN| ==> !IsSpace(CollapseToThree(s)[|OPEN|])
  {
    NoNewlineInTags();
    assert IsSpace('\n');
    hide CollapseToThree, IsSpace;
    if OPEN <= CollapseToThree(s) {
      ThreeWordBack(s, OPEN);
      var z := s[|OPEN|..];
      assert s == OPEN + z;
      ThreeCopies(OPEN, z);
      ThreeHead(z);
    }
  }

  lemma ThreeHead(z: string)
    ensures CollapseToThree(z) != "" ==> z != "" && (CollapseToThree(z)[0] == z[0] || z[0] == '\n')
  {
  }

  lemma ThreeCloses(s: string)
    requires s != "" && CloseTight(s)
    ensures IsSpace(s[0]) ==> !(CLOSE <= CollapseToThree(s[1..]))
  {
    NoNewlineInTags();
    hide CollapseToThree, IsSpace;
    if CLOSE <= CollapseToThree(s[1..]) {
      ThreeWordBack(s[1..], CLOSE);
    }
  }

  lemma {:induction false} PrefixTight(s: string, p: string)
    requires OpenTight(s) && CloseTight(s) && p <= s
    ensures OpenTight(p) && CloseTight(p)
    decreases |p|
  {
    if p != "" {
      assert p[1..] <= s[1..];
      PrefixTight(s[1..], p[1..]);
    }
  }

  /** In a welcome message no blockquote begins or ends with white space, however its tags are nested. */
  lemma WelcomeQuotes(text: string)
    ensures OpenTight(PolishWelcomeLayout(text)) && CloseTight(PolishWelcomeLayout(text))
  {
    var b := SpaceDividers(StripLineEnds(TrimQuotes(text)));
    var c := TightenClose(TightenOpen(b));
    OpenIsTight(b);
    CloseKeepsOpen(TightenOpen(b));
    CloseIsTight(TightenOpen(b));
    ThreeKeepsTight(c);
    TrimEndShape(CollapseToThree(c));
    PrefixTight(CollapseToThree(c), TrimEnd(CollapseToThree(c)));
    WelcomeIs(text);
    hide *;
  }
}
