// What the message passes of src/ui/design-system.ts keep: every visible character, the `<pre>` blocks, the dividers.
module MessageScreens {
  import opened MessageText
  import opened MessageThinning
  import opened MessageQuotes
  import opened MessagePolish

  // ---------------------------------------------------------------- only white space goes

  /** `y` is `z` with white space deleted, and nothing else changed. */
  ghost predicate Pruned(z: string, y: string)
    decreases |z|
  {
    if z == "" then y == ""
    else
      || (y != "" && y[0] == z[0] && Pruned(z[1..], y[1..]))
      || (IsSpace(z[0]) && Pruned(z[1..], y))
  }

  lemma {:induction false} ThinnedPruned(z: string, y: string, b: Before)
    requires Thinned(z, y, b)
    ensures Pruned(z, y)
    decreases |z|
  {
    if z != "" {
      if IsSpace(z[0]) && !b.Blank? && Thinned(z[1..], y, Gap) {
        ThinnedPruned(z[1..], y, Gap);
      } else {
        ThinnedPruned(z[1..], y[1..], AfterChar(z[0]));
      }
    }
  }

  lemma {:induction false} PrunedInk(z: string, y: string)
    requires Pruned(z, y)
    ensures Ink(y) == Ink(z)
    decreases |z|
  {
    if z != "" {
      if IsSpace(z[0]) && Pruned(z[1..], y) {
        PrunedInk(z[1..], y);
      } else {
        PrunedInk(z[1..], y[1..]);
      }
    }
  }

  lemma {:induction false} PrunedSelf(z: string)
    ensures Pruned(z, z)
  {
    if z != "" {
      PrunedSelf(z[1..]);
    }
  }

  lemma {:induction false} PrunedTrans(z: string, y: string, x: string)
    requires Pruned(z, y) && Pruned(y, x)
    ensures Pruned(z, x)
    decreases |z|
  {
    if z != "" {
      if IsSpace(z[0]) && Pruned(z[1..], y) {
        PrunedTrans(z[1..], y, x);
      } else if IsSpace(y[0]) && Pruned(y[1..], x) {
        PrunedTrans(z[1..], y[1..], x);
      } else {
        PrunedTrans(z[1..], y[1..], x[1..]);
      }
    }
  }

  lemma {:induction false} PrunedConcat(a: string, a': string, r: string, r': string)
    requires Pruned(a, a') && Pruned(r, r')
    ensures Pruned(a + r, a' + r')
    decreases |a|
  {
    if a == "" {
      assert a + r == r && a' + r' == r';
    } else {
      assert (a + r)[1..] == a[1..] + r;
      if IsSpace(a[0]) && Pruned(a[1..], a') {
        PrunedConcat(a[1..], a', r, r');
      } else {
        PrunedConcat(a[1..], a'[1..], r, r');
        assert (a' + r')[1..] == a'[1..] + r';
      }
    }
  }

  lemma {:induction false} TrimStartPrunes(s: string)
    ensures Pruned(s, TrimStart(s))
  {
    if s != "" && IsSpace(s[0]) {
      TrimStartPrunes(s[1..]);
    } else {
      PrunedSelf(s);
    }
  }

  lemma TrimQuotePrunes(c: string)
    ensures Pruned(c, TrimQuote(c))
  {
    var s := StripLineEnds(c);
    StripThins(c, Solid);
    ThinnedPruned(c, s, Solid);
    TrimEndThins(s, Solid);
    ThinnedPruned(s, TrimEnd(s), Solid);
    TrimStartPrunes(TrimEnd(s));
    PrunedTrans(c, s, TrimEnd(s));
    PrunedTrans(c, TrimEnd(s), TrimQuote(c));
  }

  lemma {:induction false} TrimQuotesPrunes(s: string)
    ensures Pruned(s, TrimQuotes(s))
    decreases |s|
  {
    if s == "" {
    } else if At(s, OPEN) && Has(s[|OPEN|..], CLOSE) {
      var o, c, k, r := CutQuote(s);
      TrimQuotesPrunes(r);
      TrimQuotePrunes(c);
      PrunedSelf(o);
      PrunedSelf(k);
      PrunedConcat(k, k, r, TrimQuotes(r));
      PrunedConcat(c, TrimQuote(c), k + r, k + TrimQuotes(r));
      PrunedConcat(o, o, c + (k + r), TrimQuote(c) + (k + TrimQuotes(r)));
    } else {
      TrimQuotesPrunes(s[1..]);
    }
  }

  /** `polishMessageText` deletes white space and does nothing else. */
  lemma PolishOnlyPrunes(text: string)
    ensures Pruned(text, PolishMessageText(text))
    ensures Ink(PolishMessageText(text)) == Ink(text)
  {
    var q := TrimQuotes(text);
    var cut := SplitPre(q);
    var g := Flat(Polished(cut));
    TrimQuotesPrunes(text);
    SplitWellCut(q);
    PolishedWellCut(cut);
    ThinnedPruned(q, g, Solid);
    TrimStartPrunes(g);
    PrunedTrans(text, q, g);
    PrunedTrans(text, g, TrimStart(g));
    PrunedInk(text, PolishMessageText(text));
  }

  /** Pruning never takes a word apart. */
  lemma {:induction false} PrunedHas(z: string, y: string, w: string)
    requires Pruned(z, y) && w != "" && Ink(w) == w && Has(z, w)
    ensures Has(y, w)
    decreases |z|
  {
    if At(z, w) {
      PrunedAt(z, y, w);
    } else if IsSpace(z[0]) && Pruned(z[1..], y) {
      PrunedHas(z[1..], y, w);
    } else {
      PrunedHas(z[1..], y[1..], w);
    }
  }

  lemma InkHead(w: string)
    requires w != "" && Ink(w) == w
    ensures !IsSpace(w[0]) && Ink(w[1..]) == w[1..]
  {
    InkShorter(w[1..]);
  }

  lemma {:induction false} InkShorter(w: string)
    ensures |Ink(w)| <= |w|
  {
    if w != "" {
      InkShorter(w[1..]);
    }
  }

  lemma {:induction false} PrunedAt(z: string, y: string, w: string)
    requires Pruned(z, y) && w != "" && Ink(w) == w && At(z, w)
    ensures At(y, w)
    decreases |w|
  {
    InkHead(w);
    AtHead(z, w);
    AtHead(y, w);
    if w[1..] != "" {
      PrunedAt(z[1..], y[1..], w[1..]);
    }
  }

  // ---------------------------------------------------------------- pre blocks

  function BlocksOf(p: Pieces): seq<string> {
    match p
    case Last(text) => []
    case More(text, block, rest) => [block] + BlocksOf(rest)
  }

  /** The `<pre>` blocks of `s`, in order. */
  function Blocks(s: string): seq<string> {
    BlocksOf(SplitPre(s))
  }

  lemma {:induction false} PolishedBlocks(p: Pieces)
    ensures BlocksOf(Polished(p)) == BlocksOf(p)
  {
    if p.More? {
      PolishedBlocks(p.rest);
    }
  }

  /** The `<pre>` blocks of a polished message are those of the text behind the blockquote pass, verbatim. */
  lemma BlocksVerbatim(text: string)
    ensures Blocks(PolishMessageText(text)) == Blocks(TrimQuotes(text))
    ensures Tight(text, Outside) ==> Blocks(PolishMessageText(text)) == Blocks(text)
  {
    var cut := SplitPre(TrimQuotes(text));
    SplitWellCut(TrimQuotes(text));
    PolishedWellCut(cut);
    FrontTrimmedWellCut(Polished(cut));
    CutAgain(FrontTrimmed(Polished(cut)));
    PolishedBlocks(cut);
    if Tight(text, Outside) {
      TightFixed(text);
    }
  }

  /** A `<pre>` block with a blockquote inside. */
  const QUOTE_IN_PRE: string := "<pre>" + OPEN + " " + CLOSE + UNPRE

  lemma {:induction false} CopyPrefix(p: string, s: string)
    requires forall i | 0 <= i < |p| :: !At(p[i..] + s, OPEN)
    ensures TrimQuotes(p + s) == p + TrimQuotes(s)
    decreases |p|
  {
    if p == "" {
      assert p + s == s;
    } else {
      assert p[0..] == p;
      forall i | 0 <= i < |p[1..]| ensures !At(p[1..][i..] + s, OPEN) {
        assert p[1..][i..] == p[i + 1..];
      }
      CopyPrefix(p[1..], s);
      CopyOne(p, s);
    }
  }

  lemma QuotesCopy(s: string)
    requires s != "" && !At(s, OPEN)
    ensures TrimQuotes(s) == [s[0]] + TrimQuotes(s[1..])
  {
    hide At, Has, Find, TrimQuote;
  }

  lemma CopyOne(p: string, s: string)
    requires p != "" && !At(p + s, OPEN) && TrimQuotes(p[1..] + s) == p[1..] + TrimQuotes(s)
    ensures TrimQuotes(p + s) == p + TrimQuotes(s)
  {
    hide *;
    Tail2(p, s);
    QuotesCopy(p + s);
    HeadTail(p);
  }

  lemma {:induction false} FindIs(s: string, w: string, k: nat)
    requires k < |s| && At(s[k..], w) && forall i | 0 <= i < k :: !At(s[i..], w)
    ensures Has(s, w) && Find(s, w) == k
    decreases k
  {
    hide At;
    assert s[0..] == s;
    if k > 0 {
      assert s[k..] == s[1..][k - 1..];
      forall i | 0 <= i < k - 1 ensures !At(s[1..][i..], w) {
        assert s[i + 1..] == s[1..][i..];
      }
      assert Has(s[1..], w) && Find(s[1..], w) == k - 1 by { FindIs(s[1..], w, k - 1); }
    }
  }

  /**
   * The comment on `polishMessageText` promises `<pre>` blocks verbatim. With a blockquote inside one that fails:
   * the blockquote pass runs first and trims there too.
   */
  lemma QuoteInPreIsTrimmed()
    ensures Blocks(QUOTE_IN_PRE) == [QUOTE_IN_PRE]
    ensures Blocks(PolishMessageText(QUOTE_IN_PRE)) != [QUOTE_IN_PRE]
  {
    QuoteInPreIsBlock();
    QuoteInPreShrinks();
    BlocksVerbatim(QUOTE_IN_PRE);
    BlocksInside(TrimQuotes(QUOTE_IN_PRE));
  }

  lemma QuoteInPreIsBlock()
    ensures Blocks(QUOTE_IN_PRE) == [QUOTE_IN_PRE]
  {
    var t := QUOTE_IN_PRE;
    var rest := OPEN + " " + CLOSE + UNPRE;
    assert |rest| == 32 && |UNPRE| == 6 && t == "<pre>" + rest;
    hide Has, Find, Blocks;
    UnpreLast(rest);
    WholeBlock(t, rest);
  }

  lemma WholeBlock(t: string, rest: string)
    requires t == "<pre>" + rest && Has(rest, UNPRE) && Find(rest, UNPRE) + |UNPRE| == |rest|
    ensures Blocks(t) == [t]
  {
    assert PreMatch(t) == |t| by {
      hide Has, Find;
      assert t[5..] == rest && t[4] == '>' && |PRE| == 4;
    }
    hide *;
    OneBlock(t);
  }

  lemma OneBlock(t: string)
    requires t != "" && PreMatch(t) == |t|
    ensures Blocks(t) == [t]
  {
    hide PreMatch;
    assert t[..|t|] == t && t[|t|..] == "";
    assert SplitPre(t) == More("", t, Last(""));
    assert BlocksOf(Last("")) == [];
  }

  lemma ThirdPart(a: string, b: string, c: string, d: string, i: nat)
    requires i < |a| + |b| + |c|
    ensures i < |a| ==> (a + b + c + d)[i] == a[i]
    ensures |a| <= i < |a| + |b| ==> (a + b + c + d)[i] == b[i - |a|]
    ensures |a| + |b| <= i ==> (a + b + c + d)[i] == c[i - |a| - |b|]
  {
  }

  lemma UnpreLetters(t: string)
    ensures At(t, UNPRE) ==> |t| >= 6 && Lower(t[0]) == '<' && Lower(t[1]) == '/' && Lower(t[2]) == 'p'
  {
    assert UNPRE[0] == '<' && UNPRE[1] == '/' && UNPRE[2] == 'p';
  }

  /** Where the first three letters of `</pre>` are not, the tag is not. */
  lemma NotUnpre(s: string, i: nat)
    requires i + 3 <= |s|
    requires Lower(s[i]) != '<' || Lower(s[i + 1]) != '/' || Lower(s[i + 2]) != 'p'
    ensures !At(s[i..], UNPRE)
  {
    hide At, Lower;
    var t := s[i..];
    assert t[0] == s[i] && t[1] == s[i + 1] && t[2] == s[i + 2];
    UnpreLetters(t);
  }

  lemma UnpreLast(rest: string)
    requires rest == OPEN + " " + CLOSE + UNPRE
    ensures Has(rest, UNPRE) && Find(rest, UNPRE) == 26
  {
    hide At, Has, Find;
    assert |rest| == 32;
    forall i | 0 <= i < 26 ensures !At(rest[i..], UNPRE) {
      ThirdPart(OPEN, " ", CLOSE, UNPRE, i);
      if i == 0 || i == 13 {
        ThirdPart(OPEN, " ", CLOSE, UNPRE, i + 1);
        ThirdPart(OPEN, " ", CLOSE, UNPRE, i + 2);
        assert rest[i + 1] == if i == 0 then 'b' else '/';
        assert i == 13 ==> rest[i + 2] == 'b';
      } else {
        NoOtherAngle(i);
      }
      NotUnpre(rest, i);
    }
    assert rest[26..] == UNPRE && At(UNPRE, UNPRE) by { UnpreItself(); }
    FindIs(rest, UNPRE, 26);
  }

  lemma NoOtherAngle(i: nat)
    requires 0 < i < 26 && i != 13
    ensures Lower(if i < 12 then OPEN[i] else if i == 12 then ' ' else CLOSE[i - 13]) != '<'
  {
    Tags();
  }

  lemma UnpreItself()
    ensures At(UNPRE, UNPRE)
  {
    Tags();
  }

  lemma QuoteInPreShrinks()
    ensures |TrimQuotes(QUOTE_IN_PRE)| < |QUOTE_IN_PRE|
  {
    var inner := " " + CLOSE + UNPRE;
    var rest := OPEN + inner;
    assert QUOTE_IN_PRE == "<pre>" + rest;
    PreCopied(rest);
    assert Has(inner, CLOSE) && Find(inner, CLOSE) == 1 by { SpaceThenClose(inner); }
    EmptyQuoteShrinks(inner);
  }

  lemma PreCopied(rest: string)
    requires rest != "" && rest[0] == '<'
    ensures TrimQuotes("<pre>" + rest) == "<pre>" + TrimQuotes(rest)
  {
    forall i | 0 <= i < 5 ensures !At("<pre>"[i..] + rest, OPEN) {
      var s := "<pre>"[i..] + rest;
      assert s[1] == if i < 4 then "<pre>"[i + 1] else '<';
      assert Lower(s[1]) != OPEN[1];
    }
    CopyPrefix("<pre>", rest);
  }

  lemma SpaceThenClose(s: string)
    requires s == " " + CLOSE + UNPRE
    ensures Has(s, CLOSE) && Find(s, CLOSE) == 1
  {
    assert s[1..] == CLOSE + UNPRE;
    assert s[0..][0] == ' ';
    FindIs(s, CLOSE, 1);
  }

  lemma EmptyQuoteShrinks(inner: string)
    requires Has(inner, CLOSE) && Find(inner, CLOSE) == 1 && inner[0] == ' '
    ensures |TrimQuotes(OPEN + inner)| < |OPEN + inner|
  {
    var s := OPEN + inner;
    OpenInFront(inner);
    TrimQuotesUnfold(s, inner, 1);
    hide *;
    assert inner[..1] == " ";
    SpaceTrimmed();
    TrimQuotesShorter(inner[1 + |CLOSE|..]);
  }

  lemma OpenInFront(s: string)
    ensures At(OPEN + s, OPEN) && (OPEN + s)[|OPEN|..] == s
  {
  }

  lemma SpaceTrimmed()
    ensures TrimQuote(" ") == ""
  {
    assert StripLineEnds(" ") == "";
  }

  lemma TrimQuotesShorter(s: string)
    ensures |TrimQuotes(s)| <= |s|
  {
    TrimQuotesPrunes(s);
    PrunedShorter(s, TrimQuotes(s));
  }

  lemma {:induction false} PrunedShorter(z: string, y: string)
    requires Pruned(z, y)
    ensures |y| <= |z|
    decreases |z|
  {
    if z != "" {
      if IsSpace(z[0]) && Pruned(z[1..], y) {
        PrunedShorter(z[1..], y);
      } else {
        PrunedShorter(z[1..], y[1..]);
      }
    }
  }

  lemma BlocksInside(s: string)
    ensures Blocks(s) != [] ==> |Blocks(s)[0]| <= |s|
  {
    SplitWellCut(s);
  }

  /** A text without any `<pre>` block comes out clean: no blanks at line ends, no empty line twice, no outer space. */
  lemma PlainTextClean(text: string)
    requires !HasBlock(TrimQuotes(text))
    ensures var y := PolishMessageText(text);
            LinesTight(y) && NoTriple(y) && EndsInInk(y) && (y != "" ==> !IsSpace(y[0]))
  {
    var q := TrimQuotes(text);
    PlainSplit(q);
    PolishPartStable(q);
    StableTrimStart(PolishPart(q));
  }

  // ---------------------------------------------------------------- screens

  /** What `joinScreenSections` returns is not changed by sending it. */
  lemma JoinedIsFixed(sections: seq<string>)
    ensures PolishMessageText(JoinScreenSections(sections)) == JoinScreenSections(sections)
  {
    PolishIdempotent(JoinNonEmpty(sections));
  }

  lemma DividerIsInk()
    ensures Ink(DIVIDER) == DIVIDER && Ink(HEAVY_DIVIDER) == HEAVY_DIVIDER
  {
    assert !IsSpace('─') && !IsSpace('━');
    hide IsSpace;
    AllInk(DIVIDER);
    AllInk(HEAVY_DIVIDER);
  }

  lemma {:induction false} AllInk(w: string)
    requires forall i | 0 <= i < |w| :: !IsSpace(w[i])
    ensures Ink(w) == w
  {
    if w != "" {
      AllInk(w[1..]);
    }
  }

  lemma PolishKeepsStructure(text: string)
    requires HasPremiumStructure(text)
    ensures HasPremiumStructure(PolishMessageText(text))
  {
    DividerIsInk();
    PolishOnlyPrunes(text);
    if Has(text, DIVIDER) {
      PrunedHas(text, PolishMessageText(text), DIVIDER);
    } else {
      PrunedHas(text, PolishMessageText(text), HEAVY_DIVIDER);
    }
  }

  lemma {:induction false} HasAtEnd(s: string, w: string)
    requires w != "" && At(w, w)
    ensures Has(s + w, w)
  {
    if s == "" {
      assert s + w == w;
    } else {
      assert (s + w)[1..] == s[1..] + w;
      HasAtEnd(s[1..], w);
    }
  }

  lemma {:induction false} PolishedEndsInInk(p: Pieces)
    requires WellCut(p)
    ensures EndsInInk(Flat(Polished(p)))
  {
    PolishPartStable(p.text);
    if p.More? {
      PolishedEndsInInk(p.rest);
      BlockShape(p.block);
    }
  }

  /** Polished text has no white space at either end. */
  lemma PolishedIsTrimmed(text: string)
    ensures Trim(PolishMessageText(text)) == PolishMessageText(text)
  {
    var p := PolishedPieces(text);
    PolishedEndsInInk(p);
    TrimEndFixed(Flat(p));
    FrontTrimmedWellCut(p);
  }

  lemma TrimInk(s: string)
    ensures Ink(Trim(s)) == Ink(s)
  {
    TrimEndThins(s, Solid);
    ThinnedInk(s, TrimEnd(s), Solid);
    TrimStartPrunes(TrimEnd(s));
    PrunedInk(TrimEnd(s), Trim(s));
  }

  function InkOf(sections: seq<string>): string {
    if sections == [] then "" else Ink(sections[0]) + InkOf(sections[1..])
  }

  lemma {:induction false} JoinNonEmptyInk(sections: seq<string>)
    ensures Ink(JoinNonEmpty(sections)) == InkOf(sections)
  {
    if sections != [] {
      JoinNonEmptyInk(sections[1..]);
      var head, tail := Trim(sections[0]), JoinNonEmpty(sections[1..]);
      TrimInk(sections[0]);
      hide Trim, PolishMessageText;
      InkConcat(head, "\n\n");
      InkConcat(head + "\n\n", tail);
      NoInkInGap();
    }
  }

  lemma NoInkInGap()
    ensures Ink("\n\n") == ""
  {
    assert "\n\n"[1..] == "\n" && "\n"[1..] == "";
  }

  /** Joining sections keeps what they say, in their order. */
  lemma JoinKeepsInk(sections: seq<string>)
    ensures Ink(JoinScreenSections(sections)) == InkOf(sections)
  {
    JoinNonEmptyInk(sections);
    PolishOnlyPrunes(JoinNonEmpty(sections));
  }

  /** `premiumScreen` adds a divider when there is none, and says nothing else that was not said. */
  lemma PremiumKeepsInk(content: string)
    ensures Trim(content) != "" ==>
              Ink(PremiumScreen(content)) == Ink(content) + if HasPremiumStructure(Trim(content)) then "" else DIVIDER
  {
    var trimmed := Trim(content);
    TrimInk(content);
    InkConcat(trimmed, "\n\n");
    InkConcat(trimmed + "\n\n", DIVIDER);
    NoInkInGap();
    DividerIsInk();
    hide Trim, PolishMessageText, HasPremiumStructure, Ink;
    PolishOnlyPrunes(trimmed);
    PolishOnlyPrunes(trimmed + "\n\n" + DIVIDER);
  }

  /** `premiumScreen` is idempotent: the divider is added at most once, and polishing happens once. */
  lemma PremiumScreenIdempotent(content: string)
    ensures PremiumScreen(PremiumScreen(content)) == PremiumScreen(content)
    ensures PremiumScreen(content) != "" ==> HasPremiumStructure(PremiumScreen(content))
  {
    var trimmed := Trim(content);
    if trimmed != "" {
      var framed := if HasPremiumStructure(trimmed) then trimmed else trimmed + "\n\n" + DIVIDER;
      assert HasPremiumStructure(framed) by {
        HasAtEnd(trimmed + "\n\n", DIVIDER);
      }
      var y := PolishMessageText(framed);
      assert PremiumScreen(content) == y;
      PolishKeepsStructure(framed);
      PolishedIsTrimmed(framed);
      PolishIdempotent(framed);
    }
  }

  // ---------------------------------------------------------------- the two passes of an outgoing message

  lemma {:induction false} StripInk(s: string)
    ensures Ink(StripLineEnds(s)) == Ink(s)
  {
    StripThins(s, Solid);
    ThinnedInk(s, StripLineEnds(s), Solid);
  }

  lemma {:induction false} AfterNewlinesInk(s: string)
    ensures Ink(AfterNewlines(s)) == Ink(s)
  {
    if s != "" && s[0] == '\n' {
      AfterNewlinesInk(s[1..]);
    }
  }

  lemma {:induction false} SpaceDividersInk(s: string)
    ensures Ink(SpaceDividers(s)) == Ink(s)
    decreases |s|
  {
    var t := AfterNewlines(s);
    if s == "" {
    } else if At(t, DIVIDER) {
      var u := t[|DIVIDER|..];
      var w := SpaceDividers(AfterNewlines(u));
      assert SpaceDividers(s) == "\n\n" + DIVIDER + "\n\n" + w;
      assert Ink(w) == Ink(u) by {
        SpaceDividersInk(AfterNewlines(u));
        AfterNewlinesInk(u);
      }
      assert Ink(s) == Ink(DIVIDER) + Ink(u) by {
        AfterNewlinesInk(s);
        DividerText(t);
        InkConcat(DIVIDER, u);
      }
      FramedInk(DIVIDER, w);
    } else {
      SpaceDividersInk(s[1..]);
    }
  }

  lemma FramedInk(d: string, w: string)
    ensures Ink("\n\n" + d + "\n\n" + w) == Ink(d) + Ink(w)
  {
    assert Ink("\n\n") == "";
    InkConcat("\n\n" + d + "\n\n", w);
    InkConcat("\n\n" + d, "\n\n");
    InkConcat("\n\n", d);
  }

  lemma DividerText(t: string)
    requires At(t, DIVIDER)
    ensures t == DIVIDER + t[|DIVIDER|..]
  {
    forall i | 0 <= i < |DIVIDER| ensures t[i] == DIVIDER[i] {
      assert Lower(t[i]) == DIVIDER[i];
    }
  }

  lemma {:induction false} TightenOpenInk(s: string)
    ensures Ink(TightenOpen(s)) == Ink(s)
    decreases |s|
  {
    if s == "" {
    } else if OPEN <= s {
      var u := s[|OPEN|..];
      TrimStartPrunes(u);
      PrunedInk(u, TrimStart(u));
      TightenOpenInk(TrimStart(u));
      InkConcat(OPEN, u);
      InkConcat(OPEN, TightenOpen(TrimStart(u)));
      assert s == OPEN + u;
    } else {
      TightenOpenInk(s[1..]);
    }
  }

  lemma {:induction false} TightenCloseInk(s: string)
    ensures Ink(TightenClose(s)) == Ink(s)
  {
    if s != "" {
      TightenCloseInk(s[1..]);
    }
  }

  lemma {:induction false} CollapseToThreeInk(s: string)
    ensures Ink(CollapseToThree(s)) == Ink(s)
  {
    if s != "" {
      CollapseToThreeInk(s[1..]);
    }
  }

  /** `polishWelcomeLayout` changes nothing but white space. */
  lemma WelcomeKeepsInk(text: string)
    ensures Ink(PolishWelcomeLayout(text)) == Ink(text)
  {
    var a := TrimQuotes(text);
    TrimQuotesPrunes(text);
    PrunedInk(text, a);
    var b := StripLineEnds(a);
    StripInk(a);
    SpaceDividersInk(b);
    TightenOpenInk(SpaceDividers(b));
    TightenCloseInk(TightenOpen(SpaceDividers(b)));
    var c := TightenClose(TightenOpen(SpaceDividers(b)));
    CollapseToThreeInk(c);
    var d := CollapseToThree(c);
    TrimEndThins(d, Solid);
    ThinnedInk(d, TrimEnd(d), Solid);
  }

  /**
   * A message goes through `polishMessageText` in the context method and through the transformer on its way out.
   * The second pass changes no visible character, and nothing at all unless the text contains `<blockquote>`.
   */
  lemma SecondPass(text: string)
    ensures Ink(EnhanceText(PolishMessageText(text))) == Ink(text)
    ensures !Contains(PolishMessageText(text), OPEN) ==> EnhanceText(PolishMessageText(text)) == PolishMessageText(text)
  {
    var once := PolishMessageText(text);
    PolishOnlyPrunes(text);
    PolishIdempotent(text);
    WelcomeKeepsInk(once);
  }
}
