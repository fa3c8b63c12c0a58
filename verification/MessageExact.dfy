// Exactly which characters `polishMessageText` deletes (src/ui/design-system.ts:16-22,97-113), position by position and without
// the passes: a character stays or goes by what stands around it in its stretch of text.
module MessageExact {
  import opened MessageText
  import opened MessageThinning
  import opened MessageQuotes
  import opened MessagePolish
  import opened MessageScreens
  import opened MessageBlocks

  // ---------------------------------------------------------------- what a position looks like

  predicate OnlyBlanks(s: string, i: nat, j: nat)
    requires i <= j <= |s|
  {
    forall k | i <= k < j :: IsBlank(s[k])
  }

  /** A blank at the end of its line: only blanks stand between it and the next line terminator, or the end. */
  predicate EndsLine(s: string, i: nat)
    requires i < |s|
  {
    IsBlank(s[i]) && exists j | i < j <= |s| :: OnlyBlanks(s, i, j) && (j == |s| || IsEol(s[j]))
  }

  /** Behind position `i`, two further line feeds follow, with nothing but blanks in between. */
  predicate TwoMore(s: string, i: nat)
    requires i < |s|
  {
    exists j, k | i < j < k < |s| :: s[j] == '\n' && s[k] == '\n' && OnlyBlanks(s, i + 1, j) && OnlyBlanks(s, j + 1, k)
  }

  predicate InkFrom(s: string, i: nat) {
    exists j | i <= j < |s| :: !IsSpace(s[j])
  }

  predicate InkUpTo(s: string, i: nat)
    requires i < |s|
  {
    exists j | 0 <= j <= i :: !IsSpace(s[j])
  }

  /**
   * In a stretch of text outside `<pre>` blocks every character stays, but for blanks at the end of a line, line feeds that two more
   * follow, and white space at the end of the stretch.
   */
  predicate StaysInText(s: string, i: nat)
    requires i < |s|
  {
    InkFrom(s, i) && !EndsLine(s, i) && !(s[i] == '\n' && TwoMore(s, i))
  }

  function TextMask(s: string): (r: seq<bool>)
    ensures |r| == |s|
  {
    seq(|s|, i requires 0 <= i < |s| => StaysInText(s, i))
  }

  /** At the front of the message, white space in front goes as well. */
  function FrontMask(s: string): (r: seq<bool>)
    ensures |r| == |s|
  {
    seq(|s|, i requires 0 <= i < |s| => StaysInText(s, i) && InkUpTo(s, i))
  }

  // ---------------------------------------------------------------- positions and tails

  lemma BlanksTail(s: string, i: nat, j: nat)
    requires s != "" && i <= j <= |s| - 1
    ensures OnlyBlanks(s[1..], i, j) <==> OnlyBlanks(s, i + 1, j + 1)
  {
    if OnlyBlanks(s[1..], i, j) {
      forall k | i + 1 <= k < j + 1 ensures IsBlank(s[k]) {
        assert s[1..][k - 1] == s[k];
      }
    }
  }

  lemma EndsLineTail(s: string, i: nat)
    requires i + 1 < |s|
    ensures EndsLine(s, i + 1) <==> EndsLine(s[1..], i)
  {
    if EndsLine(s, i + 1) {
      var j :| i + 1 < j <= |s| && OnlyBlanks(s, i + 1, j) && (j == |s| || IsEol(s[j]));
      BlanksTail(s, i, j - 1);
    }
    if EndsLine(s[1..], i) {
      var j :| i < j <= |s| - 1 && OnlyBlanks(s[1..], i, j) && (j == |s| - 1 || IsEol(s[1..][j]));
      BlanksTail(s, i, j);
      assert OnlyBlanks(s, i + 1, j + 1);
    }
  }

  lemma TwoMoreTail(s: string, i: nat)
    requires i + 1 < |s|
    ensures TwoMore(s, i + 1) <==> TwoMore(s[1..], i)
  {
    hide OnlyBlanks;
    if TwoMore(s, i + 1) {
      var j, k :| i + 1 < j < k < |s| && s[j] == '\n' && s[k] == '\n' && OnlyBlanks(s, i + 2, j) && OnlyBlanks(s, j + 1, k);
      BlanksTail(s, i + 1, j - 1);
      BlanksTail(s, j, k - 1);
      assert s[1..][j - 1] == '\n' && s[1..][k - 1] == '\n' && OnlyBlanks(s[1..], j - 1 + 1, k - 1);
    }
    if TwoMore(s[1..], i) {
      var j, k :| i < j < k < |s| - 1 && s[1..][j] == '\n' && s[1..][k] == '\n'
                  && OnlyBlanks(s[1..], i + 1, j) && OnlyBlanks(s[1..], j + 1, k);
      BlanksTail(s, i + 1, j);
      BlanksTail(s, j + 1, k);
      assert s[j + 1] == '\n' && s[k + 1] == '\n';
    }
  }

  lemma InkTail(s: string, i: nat)
    requires i + 1 < |s|
    ensures InkFrom(s, i + 1) <==> InkFrom(s[1..], i)
    ensures InkUpTo(s, i + 1) <==> !IsSpace(s[0]) || InkUpTo(s[1..], i)
  {
    if InkFrom(s, i + 1) {
      var j :| i + 1 <= j < |s| && !IsSpace(s[j]);
      assert s[1..][j - 1] == s[j];
    }
    if InkUpTo(s, i + 1) && IsSpace(s[0]) {
      var j :| 0 <= j <= i + 1 && !IsSpace(s[j]);
      assert s[1..][j - 1] == s[j];
    }
    if InkUpTo(s[1..], i) {
      var j :| 0 <= j <= i && !IsSpace(s[1..][j]);
      assert s[j + 1] == s[1..][j];
    }
  }

  lemma StaysTail(s: string, i: nat)
    requires i + 1 < |s|
    ensures StaysInText(s, i + 1) <==> StaysInText(s[1..], i)
  {
    EndsLineTail(s, i);
    TwoMoreTail(s, i);
    InkTail(s, i);
    hide EndsLine, TwoMore, InkFrom;
  }

  lemma InkIsNoSpace(s: string)
    ensures InkFrom(s, 0) <==> !AllSpace(s)
  {
  }

  // ---------------------------------------------------------------- the passes at the front

  lemma {:induction false} BlankToEolIs(s: string)
    ensures BlankToEol(s) <==> exists j | 0 <= j <= |s| :: OnlyBlanks(s, 0, j) && (j == |s| || IsEol(s[j]))
  {
    if s == "" || IsEol(s[0]) {
      assert OnlyBlanks(s, 0, 0);
    } else {
      BlankToEolIs(s[1..]);
      if BlankToEol(s) {
        var j :| 0 <= j <= |s| - 1 && OnlyBlanks(s[1..], 0, j) && (j == |s| - 1 || IsEol(s[1..][j]));
        BlanksTail(s, 0, j);
        assert OnlyBlanks(s, 0, j + 1);
      }
      if j :| 0 <= j <= |s| && OnlyBlanks(s, 0, j) && (j == |s| || IsEol(s[j])) {
        assert j > 0;
        assert IsBlank(s[0]);
        BlanksTail(s, 0, j - 1);
        assert OnlyBlanks(s[1..], 0, j - 1);
      }
    }
  }

  lemma EndsLineIs(s: string)
    requires s != ""
    ensures EndsLine(s, 0) <==> IsBlank(s[0]) && BlankToEol(s[1..])
  {
    BlankToEolIs(s[1..]);
    if EndsLine(s, 0) {
      var j :| 0 < j <= |s| && OnlyBlanks(s, 0, j) && (j == |s| || IsEol(s[j]));
      BlanksTail(s, 0, j - 1);
    }
    if IsBlank(s[0]) && BlankToEol(s[1..]) {
      var j :| 0 <= j <= |s| - 1 && OnlyBlanks(s[1..], 0, j) && (j == |s| - 1 || IsEol(s[1..][j]));
      BlanksTail(s, 0, j);
      assert OnlyBlanks(s, 0, j + 1);
    }
  }

  /** Blanks in front of a line feed go, the line feed stays. */
  lemma {:induction false} StripToNewline(s: string, j: nat)
    requires j < |s| && OnlyBlanks(s, 0, j) && s[j] == '\n'
    ensures StripLineEnds(s) == "\n" + StripLineEnds(s[j + 1..])
    decreases j
  {
    if j > 0 {
      BlanksTail(s, 0, j - 1);
      StripToNewline(s[1..], j - 1);
      BlankToEolIs(s[1..]);
      assert s[1..][j..] == s[j + 1..];
    }
  }

  lemma {:induction false} NewlineWasThere(s: string) returns (j: nat)
    requires StripLineEnds(s) != "" && StripLineEnds(s)[0] == '\n'
    ensures j < |s| && OnlyBlanks(s, 0, j) && s[j] == '\n' && StripLineEnds(s)[1..] == StripLineEnds(s[j + 1..])
  {
    if IsBlank(s[0]) && BlankToEol(s[1..]) {
      var k := NewlineWasThere(s[1..]);
      j := k + 1;
      BlanksTail(s, 0, k);
      assert s[1..][k + 1..] == s[j + 1..];
    } else {
      j := 0;
      assert ("\n" + StripLineEnds(s[1..]))[1..] == StripLineEnds(s[1..]);
    }
  }

  predicate StartsDoubleNewline(s: string) {
    |s| >= 2 && s[0] == '\n' && s[1] == '\n'
  }

  lemma BlanksSlice(s: string, a: nat, i: nat, j: nat)
    requires a <= |s| && i <= j <= |s| - a
    ensures OnlyBlanks(s[a..], i, j) <==> OnlyBlanks(s, a + i, a + j)
  {
    if OnlyBlanks(s[a..], i, j) {
      forall k | a + i <= k < a + j ensures IsBlank(s[k]) {
        assert s[a..][k - a] == s[k];
      }
    }
  }

  lemma TwoMoreStrips(s: string, j: nat, k: nat)
    requires 0 < j < k < |s| && s[j] == '\n' && s[k] == '\n' && OnlyBlanks(s, 1, j) && OnlyBlanks(s, j + 1, k)
    ensures StartsDoubleNewline(StripLineEnds(s[1..]))
  {
    var r, r' := s[1..], s[j + 1..];
    BlanksSlice(s, 1, 0, j - 1);
    BlanksSlice(s, j + 1, 0, k - j - 1);
    assert r[j - 1] == '\n' && r'[k - j - 1] == '\n' && r[j..] == r';
    hide OnlyBlanks;
    StripToNewline(r, j - 1);
    StripToNewline(r', k - j - 1);
    hide StripLineEnds;
  }

  lemma StripsTwoMore(s: string)
    requires s != "" && StartsDoubleNewline(StripLineEnds(s[1..]))
    ensures TwoMore(s, 0)
  {
    var r := s[1..];
    var t := StripLineEnds(r);
    var j := NewlineWasThere(r);
    var r' := r[j + 1..];
    assert t[1..] == StripLineEnds(r') && t[1..][0] == '\n';
    hide StripLineEnds, OnlyBlanks;
    var k := NewlineWasThere(r');
    assert r' == s[j + 2..];
    assert s[j + 1] == r[j] && s[j + 2 + k] == r'[k];
    BlanksSlice(s, 1, 0, j);
    BlanksSlice(s, j + 2, 0, k);
  }

  lemma TwoMoreIs(s: string)
    requires s != ""
    ensures TwoMore(s, 0) <==> StartsDoubleNewline(StripLineEnds(s[1..]))
  {
    if TwoMore(s, 0) {
      var j, k :| 0 < j < k < |s| && s[j] == '\n' && s[k] == '\n' && OnlyBlanks(s, 1, j) && OnlyBlanks(s, j + 1, k);
      TwoMoreStrips(s, j, k);
    }
    if StartsDoubleNewline(StripLineEnds(s[1..])) {
      StripsTwoMore(s);
    }
  }

  lemma {:induction false} CollapseSpace(s: string)
    ensures AllSpace(CollapseNewlines(s)) <==> AllSpace(s)
  {
    if s != "" {
      CollapseSpace(s[1..]);
      AllSpaceTail(s);
      if !StartsTripleNewline(s) {
        AllSpaceTail(CollapseNewlines(s));
        assert CollapseNewlines(s)[1..] == CollapseNewlines(s[1..]);
      }
    }
  }

  /** The three passes at the front of a text. */
  lemma PolishStep(s: string)
    requires s != ""
    ensures PolishPart(s) == (if StaysInText(s, 0) then [s[0]] else "") + PolishPart(s[1..])
  {
    var t := StripLineEnds(s[1..]);
    EndsLineIs(s);
    TwoMoreIs(s);
    InkIsNoSpace(s);
    StripSpace(s);
    CollapseSpace(StripLineEnds(s));
    StripSpace(s[1..]);
    CollapseSpace(t);
    AllSpaceTail(s);
    hide EndsLine, TwoMore, InkFrom, BlankToEol, AllSpace;
    if !EndsLine(s, 0) {
      CollapseStep(s[0], t);
      var u := CollapseNewlines(t);
      hide CollapseNewlines;
      if s[0] == '\n' && TwoMore(s, 0) {
        assert PolishPart(s) == PolishPart(s[1..]);
      } else {
        assert ([s[0]] + u)[1..] == u;
        assert TrimEnd([s[0]] + u) == if AllSpace([s[0]] + u) then "" else [s[0]] + TrimEnd(u);
      }
    }
  }

  lemma CollapseStep(c: char, t: string)
    ensures CollapseNewlines([c] + t)
            == if c == '\n' && StartsDoubleNewline(t) then CollapseNewlines(t) else [c] + CollapseNewlines(t)
  {
    var s := [c] + t;
    assert s[1..] == t;
    assert StartsTripleNewline(s) <==> c == '\n' && StartsDoubleNewline(t);
  }

  lemma MaskTail(s: string)
    requires s != ""
    ensures TextMask(s)[0] == StaysInText(s, 0) && TextMask(s)[1..] == TextMask(s[1..])
  {
    forall i | 0 <= i < |s| - 1 ensures TextMask(s)[1..][i] == TextMask(s[1..])[i] {
      StaysTail(s, i);
    }
  }

  /** What is left of a stretch of text are exactly the characters that stay. */
  lemma {:induction false} PolishPartExactly(s: string)
    ensures PolishPart(s) == Keep(s, TextMask(s))
  {
    if s != "" {
      PolishStep(s);
      MaskTail(s);
      hide StaysInText, PolishPart;
      PolishPartExactly(s[1..]);
    }
  }

  // ---------------------------------------------------------------- the front of the message

  lemma FrontMaskTail(s: string)
    requires s != "" && IsSpace(s[0])
    ensures !FrontMask(s)[0] && FrontMask(s)[1..] == FrontMask(s[1..])
  {
    forall i | 0 <= i < |s| - 1 ensures FrontMask(s)[1..][i] == FrontMask(s[1..])[i] {
      StaysTail(s, i);
      InkTail(s, i);
    }
  }

  lemma FrontMaskBehindInk(s: string)
    requires s != "" && !IsSpace(s[0])
    ensures FrontMask(s) == TextMask(s)
  {
    forall i | 0 <= i < |s| ensures FrontMask(s)[i] == TextMask(s)[i] {
      assert InkUpTo(s, i);
    }
  }

  lemma InkStays(s: string)
    requires s != "" && !IsSpace(s[0])
    ensures StaysInText(s, 0)
  {
    EndsLineIs(s);
  }

  lemma {:induction false} FrontExactly(s: string)
    ensures TrimStart(PolishPart(s)) == Keep(s, FrontMask(s))
  {
    if s != "" {
      PolishStep(s);
      if IsSpace(s[0]) {
        FrontMaskTail(s);
        FrontExactly(s[1..]);
        assert ([s[0]] + PolishPart(s[1..]))[1..] == PolishPart(s[1..]);
      } else {
        InkStays(s);
        FrontMaskBehindInk(s);
        PolishPartExactly(s);
      }
      hide StaysInText, PolishPart, FrontMask, TextMask;
    }
  }

  // ---------------------------------------------------------------- the message

  /** Every text piece with the characters that stay, every block whole. */
  function Masked(p: Pieces): Pieces {
    match p
    case Last(text) => Last(Keep(text, TextMask(text)))
    case More(text, block, rest) => More(Keep(text, TextMask(text)), block, Masked(rest))
  }

  /** Likewise, and the first piece without the white space in front. */
  function MaskedMessage(p: Pieces): Pieces {
    Masked(p).(text := Keep(p.text, FrontMask(p.text)))
  }

  lemma {:induction false} PolishedIsMasked(p: Pieces)
    ensures Polished(p) == Masked(p)
  {
    PolishPartExactly(p.text);
    if p.More? {
      PolishedIsMasked(p.rest);
    }
  }

  /**
   * `polishMessageText`, exactly: of the text behind the blockquote pass, cut at its `<pre>` blocks, the blocks stay whole and of each
   * stretch in between the characters stay that `StaysInText` says, without white space at the front of the message.
   */
  lemma PolishesExactly(text: string)
    ensures PolishMessageText(text) == Flat(MaskedMessage(SplitPre(TrimQuotes(text))))
  {
    var cut := SplitPre(TrimQuotes(text));
    SplitWellCut(TrimQuotes(text));
    PolishedIsMasked(cut);
    if cut.More? {
      BlockShape(cut.block);
    }
    FrontTrimmedFlat(Polished(cut));
    FrontExactly(cut.text);
    hide PolishPart, FrontMask, TextMask, PreMatch;
  }

  lemma {:induction false} NoQuotes(s: string)
    requires !Has(s, OPEN)
    ensures TrimQuotes(s) == s
  {
    if s != "" {
      NoQuotes(s[1..]);
    }
  }

  /** A message without blockquotes and `<pre>` blocks: these characters of it, and no others, come out. */
  lemma PlainMessageExactly(text: string)
    requires !Has(text, OPEN) && !HasBlock(text)
    ensures PolishMessageText(text) == Keep(text, FrontMask(text))
  {
    NoQuotes(text);
    PlainSplit(text);
    PolishesExactly(text);
    hide FrontMask, TextMask, PolishMessageText, HasBlock, TrimQuotes;
  }

  // ---------------------------------------------------------------- inside a blockquote

  /** Inside a blockquote every character stays, but for outer white space and blanks at the end of a line. */
  predicate StaysBetween(c: string, i: nat)
    requires i < |c|
  {
    InkFrom(c, i) && InkUpTo(c, i) && !EndsLine(c, i)
  }

  lemma StaysBetweenTail(c: string, i: nat)
    requires i + 1 < |c|
    ensures InkFrom(c, i + 1) && !EndsLine(c, i + 1) <==> InkFrom(c[1..], i) && !EndsLine(c[1..], i)
    ensures InkUpTo(c, i + 1) <==> !IsSpace(c[0]) || InkUpTo(c[1..], i)
  {
    EndsLineTail(c, i);
    InkTail(c, i);
  }

  lemma {:induction false} QuoteMaskAt(c: string, inkBefore: bool, i: nat)
    requires i < |c|
    ensures QuoteMask(c, inkBefore)[i] <==> InkFrom(c, i) && (inkBefore || InkUpTo(c, i)) && !EndsLine(c, i)
    decreases i
  {
    if i == 0 {
      EndsLineIs(c);
      InkIsNoSpace(c);
    } else {
      QuoteMaskAt(c[1..], inkBefore || !IsSpace(c[0]), i - 1);
      StaysBetweenTail(c, i - 1);
    }
  }

  /** The content of a blockquote, exactly. */
  lemma QuotesExactly(c: string)
    ensures TrimQuote(c) == Keep(c, seq(|c|, i requires 0 <= i < |c| => StaysBetween(c, i)))
  {
    var mask := seq(|c|, i requires 0 <= i < |c| => StaysBetween(c, i));
    forall i | 0 <= i < |c| ensures mask[i] == QuoteMask(c, false)[i] {
      QuoteMaskAt(c, false, i);
    }
    assert mask == QuoteMask(c, false);
    QuoteMaskTrims(c);
  }
}
