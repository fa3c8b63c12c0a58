// What the transformer of outgoing messages makes of a text (src/ui/design-system.ts:62-71,188-201): the welcome layout for a message
// with a blockquote, the general polish for any other.
module MessageOutgoing {
  import opened MessageText
  import opened MessageThinning
  import opened MessageQuotes
  import opened MessagePolish
  import opened MessageScreens
  import opened MessageBlocks
  import opened MessageExact
  import MessageWelcome

  // ---------------------------------------------------------------- welcome text without tags and dividers

  /** Behind position `i`, three further line feeds follow, with nothing but blanks in between. */
  predicate ThreeMore(s: string, i: nat)
    requires i < |s|
  {
    exists j | i < j < |s| :: s[j] == '\n' && OnlyBlanks(s, i + 1, j) && TwoMore(s, j)
  }

  /** Every character stays, but for blanks at the end of a line, line feeds that three more follow, and white space at the end. */
  predicate StaysInWelcome(s: string, i: nat)
    requires i < |s|
  {
    InkFrom(s, i) && !EndsLine(s, i) && !(s[i] == '\n' && ThreeMore(s, i))
  }

  function WelcomeMask(s: string): (r: seq<bool>)
    ensures |r| == |s|
  {
    seq(|s|, i requires 0 <= i < |s| => StaysInWelcome(s, i))
  }

  lemma {:induction false} TwoMoreSlice(s: string, a: nat)
    requires a < |s|
    ensures TwoMore(s[a..], 0) <==> TwoMore(s, a)
    decreases a
  {
    hide TwoMore;
    if a == 0 {
      assert s[0..] == s;
    } else {
      TwoMoreTail(s, a - 1);
      TwoMoreSlice(s[1..], a - 1);
      assert s[1..][a - 1..] == s[a..];
    }
  }

  lemma ThreeMoreTail(s: string, i: nat)
    requires i + 1 < |s|
    ensures ThreeMore(s, i + 1) <==> ThreeMore(s[1..], i)
  {
    hide OnlyBlanks, TwoMore;
    if ThreeMore(s, i + 1) {
      var j :| i + 1 < j < |s| && s[j] == '\n' && OnlyBlanks(s, i + 2, j) && TwoMore(s, j);
      BlanksTail(s, i + 1, j - 1);
      TwoMoreTail(s, j - 1);
      assert s[1..][j - 1] == '\n';
    }
    if ThreeMore(s[1..], i) {
      var j :| i < j < |s| - 1 && s[1..][j] == '\n' && OnlyBlanks(s[1..], i + 1, j) && TwoMore(s[1..], j);
      BlanksTail(s, i + 1, j);
      TwoMoreTail(s, j);
      assert s[j + 1] == '\n';
    }
  }

  lemma ThreeMoreIs(s: string)
    requires s != ""
    ensures ThreeMore(s, 0) <==> StartsTripleNewline(StripLineEnds(s[1..]))
  {
    if ThreeMore(s, 0) {
      var j :| 0 < j < |s| && s[j] == '\n' && OnlyBlanks(s, 1, j) && TwoMore(s, j);
      ThreeStrips(s, j);
    }
    if StartsTripleNewline(StripLineEnds(s[1..])) {
      StripsThree(s);
    }
  }

  lemma ThreeStrips(s: string, j: nat)
    requires 0 < j < |s| && s[j] == '\n' && OnlyBlanks(s, 1, j) && TwoMore(s, j)
    ensures StartsTripleNewline(StripLineEnds(s[1..]))
  {
    var r, r' := s[1..], s[j + 1..];
    BlanksSlice(s, 1, 0, j - 1);
    TwoMoreSlice(s, j);
    assert s[j..][1..] == r' && r[j - 1] == '\n' && r[j..] == r';
    hide OnlyBlanks, TwoMore;
    TwoMoreIs(s[j..]);
    StripToNewline(r, j - 1);
    hide StripLineEnds;
  }

  lemma StripsThree(s: string)
    requires s != "" && StartsTripleNewline(StripLineEnds(s[1..]))
    ensures ThreeMore(s, 0)
  {
    var r := s[1..];
    var j := NewlineWasThere(r);
    assert StartsDoubleNewline(StripLineEnds(r)[1..]);
    hide StripLineEnds, OnlyBlanks, TwoMore;
    assert r[j + 1..] == s[j + 1..][1..] && s[j + 1] == '\n';
    TwoMoreIs(s[j + 1..]);
    TwoMoreSlice(s, j + 1);
    BlanksSlice(s, 1, 0, j);
  }

  lemma {:induction false} ThreeSpace(s: string)
    ensures AllSpace(CollapseToThree(s)) <==> AllSpace(s)
  {
    if s != "" {
      ThreeSpace(s[1..]);
      AllSpaceTail(s);
      MessageWelcome.ThreeStep(s);
      if !MessageWelcome.FourNewlines(s) {
        AllSpaceTail(CollapseToThree(s));
        assert CollapseToThree(s)[1..] == CollapseToThree(s[1..]);
      }
    }
  }

  /** The passes of the welcome layout that concern a text without tags and dividers. */
  function Settle(s: string): string {
    TrimEnd(CollapseToThree(StripLineEnds(s)))
  }

  lemma SettleStep(s: string)
    requires s != ""
    ensures Settle(s) == (if StaysInWelcome(s, 0) then [s[0]] else "") + Settle(s[1..])
  {
    var t := StripLineEnds(s[1..]);
    EndsLineIs(s);
    ThreeMoreIs(s);
    InkIsNoSpace(s);
    StripSpace(s);
    ThreeSpace(StripLineEnds(s));
    StripSpace(s[1..]);
    ThreeSpace(t);
    AllSpaceTail(s);
    hide EndsLine, ThreeMore, InkFrom, BlankToEol, AllSpace;
    if !EndsLine(s, 0) {
      CollapseOne(s[0], t);
      var u := CollapseToThree(t);
      hide CollapseToThree;
      if s[0] == '\n' && ThreeMore(s, 0) {
        assert Settle(s) == Settle(s[1..]);
      } else {
        assert ([s[0]] + u)[1..] == u;
        assert TrimEnd([s[0]] + u) == if AllSpace([s[0]] + u) then "" else [s[0]] + TrimEnd(u);
      }
    }
  }

  lemma CollapseOne(c: char, t: string)
    ensures CollapseToThree([c] + t)
            == if c == '\n' && StartsTripleNewline(t) then CollapseToThree(t) else [c] + CollapseToThree(t)
  {
    var s := [c] + t;
    assert s[1..] == t;
    MessageWelcome.ThreeStep(s);
    hide CollapseToThree;
  }

  lemma WelcomeMaskTail(s: string)
    requires s != ""
    ensures WelcomeMask(s)[0] == StaysInWelcome(s, 0) && WelcomeMask(s)[1..] == WelcomeMask(s[1..])
  {
    forall i | 0 <= i < |s| - 1 ensures WelcomeMask(s)[1..][i] == WelcomeMask(s[1..])[i] {
      EndsLineTail(s, i);
      ThreeMoreTail(s, i);
      InkTail(s, i);
      hide EndsLine, ThreeMore, InkFrom;
    }
  }

  lemma {:induction false} SettlesExactly(s: string)
    ensures Settle(s) == Keep(s, WelcomeMask(s))
  {
    if s != "" {
      SettleStep(s);
      WelcomeMaskTail(s);
      hide StaysInWelcome, Settle;
      SettlesExactly(s[1..]);
    }
  }

  /** Neither the front of a tag nor a dash. */
  predicate IsPlain(s: string) {
    forall i | 0 <= i < |s| :: s[i] != '<' && s[i] != '─'
  }

  lemma {:induction false} PlainPasses(s: string)
    requires IsPlain(s)
    ensures TrimQuotes(s) == s && IsPlain(StripLineEnds(s))
    ensures SpaceDividers(s) == s && TightenOpen(s) == s && TightenClose(s) == s
  {
    MessageWelcome.Heads();
    if s != "" {
      assert IsPlain(s[1..]) by { assert forall i | 0 <= i < |s| - 1 :: s[1..][i] == s[i + 1]; }
      PlainPasses(s[1..]);
      NoTagAhead(s);
      hide At, TrimStart, AfterNewlines;
      assert s == [s[0]] + s[1..];
      assert IsPlain([s[0]] + StripLineEnds(s[1..]));
    }
  }

  lemma {:induction false} PlainTails(s: string)
    requires IsPlain(s)
    ensures IsPlain(TrimStart(s)) && IsPlain(AfterNewlines(s))
  {
    if s != "" {
      assert IsPlain(s[1..]) by { assert forall i | 0 <= i < |s| - 1 :: s[1..][i] == s[i + 1]; }
      PlainTails(s[1..]);
    }
  }

  lemma NoTagAhead(s: string)
    requires s != "" && IsPlain(s)
    ensures !At(s, OPEN) && !(OPEN <= s) && !(CLOSE <= TrimStart(s)) && !At(AfterNewlines(s), DIVIDER)
  {
    MessageWelcome.Heads();
    PlainTails(s);
    AtHead(s, OPEN);
    MessageWelcome.DividerAt(AfterNewlines(s));
    hide IsSpace;
  }

  /** The welcome layout of a text without tags and dividers: these characters of it, and no others, come out. */
  lemma WelcomePlainExactly(text: string)
    requires IsPlain(text)
    ensures PolishWelcomeLayout(text) == Keep(text, WelcomeMask(text))
  {
    PlainPasses(text);
    PlainPasses(StripLineEnds(text));
    SettlesExactly(text);
    MessageWelcome.WelcomeIs(text);
    hide WelcomeMask, PolishWelcomeLayout, TrimEnd, CollapseToThree, TightenClose, TightenOpen, SpaceDividers, StripLineEnds, TrimQuotes;
  }

  // ---------------------------------------------------------------- the choice

  lemma {:induction false} ContainsIs(s: string, w: string)
    ensures Contains(s, w) <==> exists i | 0 <= i <= |s| :: w <= s[i..]
  {
    assert s[0..] == s;
    if s != "" {
      ContainsIs(s[1..], w);
      assert forall i | 0 <= i <= |s| - 1 :: s[1..][i..] == s[i + 1..];
      if Contains(s[1..], w) {
        var i :| 0 <= i <= |s| - 1 && w <= s[1..][i..];
        assert w <= s[i + 1..];
      }
      if i :| 0 <= i <= |s| && w <= s[i..] {
        assert i > 0 ==> w <= s[1..][i - 1..];
      }
    }
  }

  /**
   * A message with `<blockquote>` gets the welcome layout, so its dividers have their places and its quotes are tight; any other is
   * polished, and keeps exactly the characters that `PolishesExactly` says.
   */
  lemma EnhancedByKind(text: string)
    ensures (exists i | 0 <= i <= |text| :: OPEN <= text[i..]) ==>
              && EnhanceText(text) == PolishWelcomeLayout(text)
              && MessageWelcome.Placed(EnhanceText(text), MessageWelcome.Other)
              && MessageWelcome.OpenTight(EnhanceText(text)) && MessageWelcome.CloseTight(EnhanceText(text))
    ensures !(exists i | 0 <= i <= |text| :: OPEN <= text[i..]) ==>
              EnhanceText(text) == Flat(MaskedMessage(SplitPre(TrimQuotes(text))))
  {
    ContainsIs(text, OPEN);
    MessageWelcome.WelcomeDividers(text);
    MessageWelcome.WelcomeQuotes(text);
    PolishesExactly(text);
    hide PolishWelcomeLayout, PolishMessageText, MaskedMessage, TrimQuotes, SplitPre, Flat;
  }
}
