// What becomes of the `<pre>` blocks of a message (src/ui/design-system.ts:15-22,94-113), block by block.
//
// The blockquote pass runs over the whole message before it is cut at `<pre>` blocks. Here the pass is read as a mask that
// says of every character whether it is kept, and blocks of the result are traced back to blocks of the message.
module MessageBlocks {
  import opened MessageText
  import opened MessageThinning
  import opened MessageQuotes
  import opened MessagePolish
  import opened MessageScreens

  // ---------------------------------------------------------------- the blockquote pass as a mask

  /** The characters whose mark is set. */
  function Keep(s: string, kept: seq<bool>): string
    requires |kept| == |s|
  {
    if s == "" then "" else (if kept[0] then [s[0]] else "") + Keep(s[1..], kept[1..])
  }

  function Same(mark: bool, n: nat): (r: seq<bool>)
    ensures |r| == n && forall i | 0 <= i < n :: r[i] == mark
  {
    seq(n, i => mark)
  }

  /** In a blockquote a space stays between visible characters, unless it is a blank at the end of a line. */
  predicate StaysInQuote(c: string, inkBefore: bool)
    requires c != ""
  {
    !IsSpace(c[0]) || (inkBefore && !AllSpace(c) && !(IsBlank(c[0]) && BlankToEol(c[1..])))
  }

  function QuoteMask(c: string, inkBefore: bool): (r: seq<bool>)
    ensures |r| == |c|
  {
    if c == "" then [] else [StaysInQuote(c, inkBefore)] + QuoteMask(c[1..], inkBefore || !IsSpace(c[0]))
  }

  /** Which characters the blockquote pass keeps. */
  function KeepMask(s: string): (r: seq<bool>)
    ensures |r| == |s|
    decreases |s|
  {
    if s == "" then []
    else if At(s, OPEN) && Has(s[|OPEN|..], CLOSE) then
      var rest := s[|OPEN|..];
      var n := Find(rest, CLOSE);
      Same(true, |OPEN|) + (QuoteMask(rest[..n], false) + (Same(true, |CLOSE|) + KeepMask(rest[n + |CLOSE|..])))
    else
      [true] + KeepMask(s[1..])
  }

  /** Length of the blockquote that matches at the front, tags included; 0 when none does. */
  function QuoteMatch(s: string): (n: nat)
    ensures n <= |s|
  {
    if At(s, OPEN) && Has(s[|OPEN|..], CLOSE) then |OPEN| + Find(s[|OPEN|..], CLOSE) + |CLOSE| else 0
  }

  /** Which characters are in a blockquote that the pass matches, tags included. */
  function Quoted(s: string): (r: seq<bool>)
    ensures |r| == |s|
    decreases |s|
  {
    if s == "" then []
    else
      var n := QuoteMatch(s);
      if n > 0 then Same(true, n) + Quoted(s[n..]) else [false] + Quoted(s[1..])
  }

  lemma {:induction false} KeepConcat(a: string, ka: seq<bool>, b: string, kb: seq<bool>)
    requires |ka| == |a| && |kb| == |b|
    ensures Keep(a + b, ka + kb) == Keep(a, ka) + Keep(b, kb)
  {
    if a == "" {
      assert a + b == b && ka + kb == kb;
    } else {
      Tail2(a, b);
      assert (ka + kb)[0] == ka[0] && (ka + kb)[1..] == ka[1..] + kb;
      KeepConcat(a[1..], ka[1..], b, kb);
    }
  }

  lemma {:induction false} KeepAll(s: string, kept: seq<bool>)
    requires |kept| == |s| && forall i | 0 <= i < |s| :: kept[i]
    ensures Keep(s, kept) == s
  {
    if s != "" {
      KeepAll(s[1..], kept[1..]);
    }
  }

  lemma {:induction false} KeepShorter(s: string, kept: seq<bool>)
    requires |kept| == |s|
    ensures |Keep(s, kept)| <= |s|
    ensures |Keep(s, kept)| == |s| ==> forall i | 0 <= i < |s| :: kept[i]
  {
    if s != "" {
      KeepShorter(s[1..], kept[1..]);
    }
  }

  lemma {:induction false} StripSpace(s: string)
    ensures AllSpace(StripLineEnds(s)) <==> AllSpace(s)
  {
    if s != "" {
      StripSpace(s[1..]);
      AllSpaceTail(s);
      if !(IsBlank(s[0]) && BlankToEol(s[1..])) {
        AllSpaceTail(StripLineEnds(s));
      }
    }
  }

  /** `StripLineEnds` in one step, and `TrimEnd` behind it. */
  lemma StripStep(c: string)
    requires c != ""
    ensures var u := StripLineEnds(c[1..]);
            && StripLineEnds(c) == (if IsBlank(c[0]) && BlankToEol(c[1..]) then u else [c[0]] + u)
            && (AllSpace(c) ==> TrimEnd(StripLineEnds(c)) == "" && TrimEnd(u) == "")
            && (!AllSpace(c) && !(IsBlank(c[0]) && BlankToEol(c[1..])) ==> TrimEnd(StripLineEnds(c)) == [c[0]] + TrimEnd(u))
  {
    StripSpace(c);
    StripSpace(c[1..]);
    AllSpaceTail(c);
    assert ([c[0]] + StripLineEnds(c[1..]))[1..] == StripLineEnds(c[1..]);
  }

  lemma {:induction false} QuoteMaskBehindInk(c: string)
    ensures Keep(c, QuoteMask(c, true)) == TrimEnd(StripLineEnds(c))
  {
    if c != "" {
      StripStep(c);
      QuoteMaskBehindInk(c[1..]);
      AllSpaceTail(c);
      hide StripLineEnds, TrimEnd, BlankToEol, AllSpace;
      assert QuoteMask(c, true)[1..] == QuoteMask(c[1..], true);
    }
  }

  lemma {:induction false} QuoteMaskTrims(c: string)
    ensures Keep(c, QuoteMask(c, false)) == TrimQuote(c)
  {
    if c != "" {
      StripStep(c);
      AllSpaceTail(c);
      assert QuoteMask(c, false)[1..] == QuoteMask(c[1..], !IsSpace(c[0]));
      var u := TrimEnd(StripLineEnds(c[1..]));
      assert ([c[0]] + u)[1..] == u;
      if IsSpace(c[0]) {
        QuoteMaskTrims(c[1..]);
      } else {
        QuoteMaskBehindInk(c[1..]);
      }
      hide StripLineEnds, TrimEnd, BlankToEol, AllSpace;
    }
  }

  /** The mask is the pass. */
  lemma {:induction false} KeptIsTrimmed(s: string)
    ensures Keep(s, KeepMask(s)) == TrimQuotes(s)
    decreases |s|
  {
    if s == "" {
    } else if At(s, OPEN) && Has(s[|OPEN|..], CLOSE) {
      var o, c, k, r := CutQuote(s);
      KeptIsTrimmed(r);
      QuoteMaskTrims(c);
      KeptOfQuote(s, o, c, k, r);
      hide KeepMask, TrimQuotes, TrimQuote, QuoteMask, At, Has, Find;
      KeepAll(k, Same(true, |CLOSE|));
      KeepAll(o, Same(true, |OPEN|));
      KeepConcat(k, Same(true, |CLOSE|), r, KeepMask(r));
      KeepConcat(c, QuoteMask(c, false), k + r, Same(true, |CLOSE|) + KeepMask(r));
      KeepConcat(o, Same(true, |OPEN|), c + (k + r), QuoteMask(c, false) + (Same(true, |CLOSE|) + KeepMask(r)));
    } else {
      KeptIsTrimmed(s[1..]);
      assert KeepMask(s)[1..] == KeepMask(s[1..]);
    }
  }

  lemma KeptOfQuote(s: string, o: string, c: string, k: string, r: string)
    requires At(s, OPEN) && Has(s[|OPEN|..], CLOSE)
    requires c == s[|OPEN|..][..Find(s[|OPEN|..], CLOSE)]
    requires r == s[|OPEN|..][Find(s[|OPEN|..], CLOSE) + |CLOSE|..]
    ensures KeepMask(s) == Same(true, |OPEN|) + (QuoteMask(c, false) + (Same(true, |CLOSE|) + KeepMask(r)))
  {
    var rest := s[|OPEN|..];
    var n := Find(rest, CLOSE);
    hide At, Has, Find, QuoteMask;
    assert KeepMask(s) == Same(true, |OPEN|) + (QuoteMask(rest[..n], false) + (Same(true, |CLOSE|) + KeepMask(rest[n + |CLOSE|..])));
  }

  lemma QuoteMatchIs(s: string, c: string, r: string)
    requires At(s, OPEN) && Has(s[|OPEN|..], CLOSE)
    requires c == s[|OPEN|..][..Find(s[|OPEN|..], CLOSE)]
    requires r == s[|OPEN|..][Find(s[|OPEN|..], CLOSE) + |CLOSE|..]
    ensures QuoteMatch(s) == |OPEN| + |c| + |CLOSE| && s[QuoteMatch(s)..] == r
  {
  }

  lemma QuotedOfQuote(s: string, n: nat)
    requires n > 0 && n == QuoteMatch(s)
    ensures Quoted(s) == Same(true, n) + Quoted(s[n..])
  {
    hide QuoteMatch;
  }

  lemma QuotedOfOther(s: string)
    requires s != "" && QuoteMatch(s) == 0
    ensures Quoted(s) == [false] + Quoted(s[1..])
  {
    hide QuoteMatch;
  }

  /** Only quoted characters are dropped. */
  ghost predicate DropsQuoted(quoted: seq<bool>, kept: seq<bool>) {
    |quoted| == |kept| && forall i | 0 <= i < |quoted| :: !quoted[i] ==> kept[i]
  }

  lemma DropsQuotedConcat(qa: seq<bool>, qb: seq<bool>, ka: seq<bool>, kb: seq<bool>)
    requires DropsQuoted(qa, ka) && DropsQuoted(qb, kb)
    ensures DropsQuoted(qa + qb, ka + kb)
  {
  }

  lemma DropsQuotedAll(n: nat, kept: seq<bool>)
    requires |kept| == n
    ensures DropsQuoted(Same(true, n), kept)
  {
  }

  lemma FourMasks(a: seq<bool>, b: seq<bool>, c: seq<bool>, d: seq<bool>)
    ensures a + (b + (c + d)) == (a + (b + c)) + d
  {
  }

  /** Only characters in matched blockquotes are dropped. */
  lemma {:induction false} UnquotedIsKept(s: string)
    ensures DropsQuoted(Quoted(s), KeepMask(s))
    decreases |s|
  {
    hide DropsQuoted;
    if s == "" {
      assert DropsQuoted([], []) by {
        DropsQuotedOne();
        DropsQuotedAll(0, []);
      }
    } else if At(s, OPEN) && Has(s[|OPEN|..], CLOSE) {
      var o, c, k, r := CutQuote(s);
      KeptOfQuote(s, o, c, k, r);
      QuoteMatchIs(s, c, r);
      QuotedOfQuote(s, |OPEN| + |c| + |CLOSE|);
      hide KeepMask, Quoted, At, Has, Find, QuoteMask, QuoteMatch;
      UnquotedIsKept(r);
      var front := Same(true, |OPEN|) + (QuoteMask(c, false) + Same(true, |CLOSE|));
      FourMasks(Same(true, |OPEN|), QuoteMask(c, false), Same(true, |CLOSE|), KeepMask(r));
      DropsQuotedAll(|OPEN| + |c| + |CLOSE|, front);
      DropsQuotedConcat(Same(true, |OPEN| + |c| + |CLOSE|), Quoted(r), front, KeepMask(r));
    } else {
      QuotedOfOther(s);
      UnquotedIsKept(s[1..]);
      assert DropsQuoted([false], [true]) by { DropsQuotedOne(); }
      DropsQuotedConcat([false], Quoted(s[1..]), [true], KeepMask(s[1..]));
    }
  }

  lemma DropsQuotedOne()
    ensures DropsQuoted([false], [true]) && Same(true, 0) == []
  {
  }

  // ---------------------------------------------------------------- how the mask may drop

  /** What stands in front: a `>`, another character that is kept, or dropped ones that are not right behind a `>`. */
  datatype Edge = Closed | Firm | Hole

  function EdgeAfter(c: char): Edge {
    if c == '>' then Closed else Firm
  }

  /** Only white space is dropped, and a gap follows a `>` or precedes a '<' or white space. */
  ghost predicate Fits(s: string, kept: seq<bool>, e: Edge)
    requires |kept| == |s|
    decreases |s|
  {
    s == "" ||
    if kept[0] then (e.Hole? ==> s[0] == '<' || IsSpace(s[0])) && Fits(s[1..], kept[1..], EdgeAfter(s[0]))
    else IsSpace(s[0]) && Fits(s[1..], kept[1..], if e.Closed? then Closed else Hole)
  }

  lemma {:induction false} FitsVerbatim(m: string, r: string, kept: seq<bool>, e: Edge)
    requires |kept| == |r| && m != "" && m[|m| - 1] == '>' && (e.Hole? ==> m[0] == '<') && Fits(r, kept, Closed)
    ensures Fits(m + r, Same(true, |m|) + kept, e)
    decreases |m|
  {
    Tail2(m, r);
    assert (Same(true, |m|) + kept)[1..] == Same(true, |m| - 1) + kept;
    if |m| == 1 {
      assert m[1..] + r == r && Same(true, 0) + kept == kept;
    } else {
      FitsVerbatim(m[1..], r, kept, EdgeAfter(m[0]));
    }
  }

  lemma {:induction false} FitsQuote(c: string, inkBefore: bool, r: string, kept: seq<bool>, e: Edge)
    requires |kept| == |r| && r != "" && r[0] == '<' && kept[0] && Fits(r, kept, Firm)
    requires !inkBefore ==> e.Closed?
    requires e.Hole? ==> AllSpace(c) || BlankToEol(c)
    ensures Fits(c + r, QuoteMask(c, inkBefore) + kept, e)
    decreases |c|
  {
    var k := QuoteMask(c, inkBefore);
    if c == "" {
      assert c + r == r && k + kept == kept;
    } else {
      Tail2(c, r);
      var ink := inkBefore || !IsSpace(c[0]);
      assert (k + kept)[0] == StaysInQuote(c, inkBefore) && (k + kept)[1..] == QuoteMask(c[1..], ink) + kept;
      AllSpaceTail(c);
      if StaysInQuote(c, inkBefore) {
        FitsQuote(c[1..], ink, r, kept, EdgeAfter(c[0]));
      } else {
        FitsQuote(c[1..], ink, r, kept, if e.Closed? then Closed else Hole);
      }
    }
  }

  /** The blockquote pass drops that way. */
  lemma {:induction false} KeptFits(s: string, e: Edge)
    requires !e.Hole?
    ensures Fits(s, KeepMask(s), e)
    decreases |s|
  {
    if s == "" {
    } else if At(s, OPEN) && Has(s[|OPEN|..], CLOSE) {
      var o, c, k, r := CutQuote(s);
      KeptFits(r, Closed);
      KeptOfQuote(s, o, c, k, r);
      assert o[|OPEN| - 1] == '>' && k[|CLOSE| - 1] == '>' && k[0] == '<' by { LastIsAngle(o, k); }
      hide KeepMask, At, Has, Find;
      FitsVerbatim(k, r, KeepMask(r), Firm);
      FitsQuote(c, false, k + r, Same(true, |CLOSE|) + KeepMask(r), Closed);
      FitsVerbatim(o, c + (k + r), QuoteMask(c, false) + (Same(true, |CLOSE|) + KeepMask(r)), e);
    } else {
      KeptFits(s[1..], EdgeAfter(s[0]));
      assert KeepMask(s)[1..] == KeepMask(s[1..]);
    }
  }

  lemma LastIsAngle(o: string, k: string)
    requires At(o, OPEN) && |o| == |OPEN| && At(k, CLOSE) && |k| == |CLOSE|
    ensures o[|OPEN| - 1] == '>' && k[|CLOSE| - 1] == '>' && k[0] == '<'
  {
    assert OPEN[|OPEN| - 1] == '>' && CLOSE[|CLOSE| - 1] == '>' && CLOSE[0] == '<';
    assert Lower(o[|OPEN| - 1]) == '>' && Lower(k[|CLOSE| - 1]) == '>' && Lower(k[0]) == '<';
  }

  // ---------------------------------------------------------------- no tag is made by dropping

  lemma {:induction false} BehindHole(s: string, kept: seq<bool>)
    requires |kept| == |s| && Fits(s, kept, Hole) && Keep(s, kept) != ""
    ensures var y := Keep(s, kept); y[0] == '<' || IsSpace(y[0])
    decreases |s|
  {
    if !kept[0] {
      BehindHole(s[1..], kept[1..]);
    }
  }

  /** A word without white space, '<' and, but for its end, '>'. */
  predicate IsWord(w: string) {
    Inner(w) && w != "" && forall i | 0 <= i < |w| - 1 :: w[i] != '>'
  }

  predicate IsPlainTag(t: string) {
    |t| > 1 && t[0] == '<' && IsWord(t[1..])
  }

  /** A word of what is kept was a word before. */
  lemma {:induction false} WordWasThere(s: string, kept: seq<bool>, w: string)
    requires |kept| == |s| && Fits(s, kept, Firm) && IsWord(w) && At(Keep(s, kept), w)
    ensures |w| <= |s| && At(s, w) && Keep(s, kept)[|w|..] == Keep(s[|w|..], kept[|w|..])
    ensures exists e: Edge :: Fits(s[|w|..], kept[|w|..], e) && (w[|w| - 1] != '>' ==> e == Firm)
    decreases |w|
  {
    var y := Keep(s, kept);
    AtHead(y, w);
    LetterIsInner(y[0], w[0]);
    if !kept[0] {
      BehindHole(s[1..], kept[1..]);
    }
    assert kept[0] && y[0] == s[0] && y[1..] == Keep(s[1..], kept[1..]);
    AtHead(s, w);
    if |w| > 1 {
      assert w[1..][|w| - 2] == w[|w| - 1] && s[0] != '>';
      WordWasThere(s[1..], kept[1..], w[1..]);
      TailOfTail(s, |w|);
      TailOfTail(kept, |w|);
      TailOfTail(y, |w|);
    } else {
      assert w[1..] == "";
      assert Fits(s[1..], kept[1..], EdgeAfter(s[0]));
      LastLetter(s[0], w[0]);
    }
  }

  lemma LetterIsInner(c: char, l: char)
    requires Lower(c) == l && !IsSpace(l) && l != '<'
    ensures c != '<' && !IsSpace(c) && (l != '>' ==> c != '>')
  {
  }

  lemma LastLetter(c: char, l: char)
    requires Lower(c) == l
    ensures c == '>' <==> l == '>'
  {
  }

  lemma TailOfTail<T>(s: seq<T>, n: nat)
    requires 1 <= n <= |s|
    ensures s[1..][n - 1..] == s[n..]
  {
  }

  /** A tag of what is kept was a tag before, when its '<' is. */
  lemma TagWasThere(s: string, kept: seq<bool>, e: Edge, t: string)
    requires |kept| == |s| && s != "" && kept[0] && Fits(s, kept, e)
    requires IsPlainTag(t) && At(Keep(s, kept), t)
    ensures |t| <= |s| && At(s, t) && Keep(s, kept)[|t|..] == Keep(s[|t|..], kept[|t|..])
    ensures exists f: Edge :: Fits(s[|t|..], kept[|t|..], f) && (t[|t| - 1] != '>' ==> f == Firm)
  {
    var y := Keep(s, kept);
    AtHead(y, t);
    AtHead(s, t);
    assert y[0] == s[0] && y[1..] == Keep(s[1..], kept[1..]);
    LastLetter(s[0], t[0]);
    WordWasThere(s[1..], kept[1..], t[1..]);
    assert t[1..][|t| - 2] == t[|t| - 1];
    TailOfTail(s, |t|);
    TailOfTail(kept, |t|);
    TailOfTail(y, |t|);
  }

  lemma PreTags()
    ensures IsPlainTag(PRE) && PRE[|PRE| - 1] != '>' && IsPlainTag(UNPRE)
  {
    assert PRE[1..] == "pre" && UNPRE[1..] == "/pre>";
  }

  lemma {:induction false} HasWasThere(s: string, kept: seq<bool>, e: Edge, t: string)
    requires |kept| == |s| && Fits(s, kept, e) && IsPlainTag(t) && Has(Keep(s, kept), t)
    ensures Has(s, t)
    decreases |s|
  {
    assert s != "";
    FitsTail(s, kept, e);
    if !kept[0] {
      assert Keep(s, kept) == Keep(s[1..], kept[1..]);
      HasWasThere(s[1..], kept[1..], if e.Closed? then Closed else Hole, t);
    } else if At(Keep(s, kept), t) {
      TagWasThere(s, kept, e, t);
    } else {
      assert Keep(s, kept)[1..] == Keep(s[1..], kept[1..]);
      HasWasThere(s[1..], kept[1..], EdgeAfter(s[0]), t);
    }
  }

  /** Where nothing matches, nothing matches behind the pass. */
  lemma MatchWasThere(s: string, kept: seq<bool>, e: Edge)
    requires |kept| == |s| && s != "" && kept[0] && Fits(s, kept, e) && PreMatch(Keep(s, kept)) > 0
    ensures PreMatch(s) > 0
  {
    PreTags();
    var y := Keep(s, kept);
    var n := |PRE|;
    TagWasThere(s, kept, e, PRE);
    var r, kr := s[n..], kept[n..];
    assert Fits(r, kr, Firm) && y[n..] == Keep(r, kr) && y[n..] != "" && y[n..][0] == y[n];
    assert r != "" && s[n] == r[0] && kept[n] == kr[0];
    assert IsSpace(s[n]) || s[n] == '>';
    assert s[n + 1..] == r[1..] && y[n + 1..] == y[n..][1..];
    hide At, Fits, IsWord;
    if kr[0] {
      assert y[n + 1..] == Keep(r[1..], kr[1..]);
      assert Fits(r[1..], kr[1..], EdgeAfter(r[0])) by { FitsTail(r, kr, Firm); }
      HasWasThere(r[1..], kr[1..], EdgeAfter(r[0]), UNPRE);
    } else {
      assert y[n..] == Keep(r[1..], kr[1..]);
      assert Fits(r[1..], kr[1..], Hole) by { FitsTail(r, kr, Firm); }
      assert Has(y[n..], UNPRE);
      HasWasThere(r[1..], kr[1..], Hole, UNPRE);
    }
  }

  lemma FitsTail(s: string, kept: seq<bool>, e: Edge)
    requires |kept| == |s| && s != "" && Fits(s, kept, e)
    ensures Fits(s[1..], kept[1..], if kept[0] then EdgeAfter(s[0]) else if e.Closed? then Closed else Hole)
    ensures !kept[0] ==> IsSpace(s[0])
  {
  }

  // ---------------------------------------------------------------- a cut in front of what a block ends with

  /** `u` ends like a closing tag, as far as it reaches. */
  predicate EndsLikeUnpre(u: string) {
    forall i | 0 <= i < |u| && |u| - |UNPRE| <= i :: Lower(u[i]) == UNPRE[|UNPRE| - |u| + i]
  }

  lemma EndsLikeUnpreTail(u: string, n: nat)
    requires EndsLikeUnpre(u) && n <= |u|
    ensures EndsLikeUnpre(u[n..])
  {
  }

  lemma {:induction false} FindAppend(c: string, r: string, t: string)
    requires t != "" && Has(c, t)
    ensures Has(c + r, t) && Find(c + r, t) == Find(c, t)
    decreases |c|
  {
    Tail2(c, r);
    AtAppend(c, r, t);
    hide At;
    if !At(c, t) {
      HasLength(c[1..], t);
      FindAppend(c[1..], r, t);
    }
  }

  lemma AtAppend(c: string, r: string, t: string)
    ensures At(c, t) ==> At(c + r, t)
    ensures |t| <= |c| && At(c + r, t) ==> At(c, t)
  {
    assert forall i | 0 <= i < |c| :: (c + r)[i] == c[i];
  }

  lemma HasLength(s: string, t: string)
    requires Has(s, t)
    ensures |t| <= |s|
  {
    assert Find(s, t) + |t| <= |s|;
  }

  /** `Blocks`, character by character. */
  lemma BlocksStep(s: string)
    requires s != ""
    ensures Blocks(s) == if PreMatch(s) > 0 then [s[..PreMatch(s)]] + Blocks(s[PreMatch(s)..]) else Blocks(s[1..])
  {
    hide PreMatch;
  }

  lemma {:induction false} HasSomewhere(s: string, k: nat, t: string)
    requires k < |s| && At(s[k..], t)
    ensures Has(s, t)
    decreases k
  {
    hide At;
    if k == 0 {
      assert s[0..] == s;
    } else {
      assert s[1..][k - 1..] == s[k..];
      HasSomewhere(s[1..], k - 1, t);
    }
  }

  /** Within the last characters of a block no other block starts. */
  lemma NoOpenAtEnd(u: string, r: string)
    requires u != "" && |u| <= |UNPRE| && EndsLikeUnpre(u)
    ensures PreMatch(u + r) == 0
  {
    assert UNPRE == "</pre>" && PRE == "<pre";
    assert (u + r)[0] == u[0];
    assert Lower(u[0]) == UNPRE[|UNPRE| - |u|];
    if |u| == |UNPRE| {
      assert (u + r)[1] == u[1] && Lower(u[1]) == UNPRE[1];
      assert !At(u + r, PRE) by {
        assert Lower((u + r)[1]) != PRE[1];
      }
    } else {
      assert !At(u + r, PRE) by {
        assert Lower((u + r)[0]) != PRE[0];
      }
    }
  }

  /** What matches at the front of a text that ends like a block ends within it. */
  lemma MatchEndsInside(u: string, r: string)
    requires |u| > |UNPRE| && EndsLikeUnpre(u)
    ensures PreMatch(u + r) == PreMatch(u)
  {
    var n := |PRE| + 1;
    assert n == 5 && |UNPRE| == 6;
    assert forall i | 0 <= i <= 5 :: (u + r)[i] == u[i];
    AtAppend(u, r, PRE);
    if AtPreOpen(u) {
      var k := |u| - |UNPRE|;
      OpenIsNoClose(u, k);
      assert (u + r)[n..] == u[n..] + r;
      assert u[n..][k - n..] == u[k..];
      UnpreAtEnd(u);
      hide At, EndsLikeUnpre;
      HasSomewhere(u[n..], k - n, UNPRE);
      FindAppend(u[n..], r, UNPRE);
    }
  }

  lemma UnpreAtEnd(u: string)
    requires |u| >= |UNPRE| && EndsLikeUnpre(u)
    ensures At(u[|u| - |UNPRE|..], UNPRE)
  {
  }

  /** The '<' of the closing tag is none of the first five characters of an opening one. */
  lemma OpenIsNoClose(u: string, k: nat)
    requires AtPreOpen(u) && 1 <= k && k + |UNPRE| == |u| && EndsLikeUnpre(u)
    ensures k > |PRE|
  {
    assert PRE[1] == 'p' && PRE[2] == 'r' && PRE[3] == 'e';
    assert Lower(u[1]) == PRE[1] && Lower(u[2]) == PRE[2] && Lower(u[3]) == PRE[3];
    assert Lower(u[k]) == UNPRE[0] == '<';
  }

  lemma SameMatch(u: string, r: string)
    requires u != "" && EndsLikeUnpre(u)
    ensures PreMatch(u + r) == PreMatch(u)
  {
    if |u| > |UNPRE| {
      MatchEndsInside(u, r);
    } else {
      NoOpenAtEnd(u, r);
      NoOpenAtEnd(u, "");
      assert u + "" == u;
    }
  }

  lemma Reassociated(x: string, a: seq<string>, b: seq<string>)
    ensures ([x] + a) + b == [x] + (a + b)
  {
  }

  lemma SplitAppend(u: string, r: string, n: nat)
    requires n <= |u|
    ensures (u + r)[n..] == u[n..] + r && (u + r)[..n] == u[..n]
  {
  }

  lemma NothingAppend(r: string)
    ensures Blocks("" + r) == Blocks("") + Blocks(r)
  {
    assert "" + r == r && Blocks("") == [];
  }

  /** Blocks of what ends like a block, and blocks behind it. */
  lemma {:induction false} BlocksAppend(u: string, r: string)
    requires EndsLikeUnpre(u)
    ensures Blocks(u + r) == Blocks(u) + Blocks(r)
    decreases |u|
  {
    hide *;
    if u == "" {
      NothingAppend(r);
    } else {
      SameMatch(u, r);
      BlocksStep(u);
      BlocksStep(u + r);
      var n := PreMatch(u);
      if n > 0 {
        SplitAppend(u, r, n);
        EndsLikeUnpreTail(u, n);
        BlocksAppend(u[n..], r);
        Reassociated(u[..n], Blocks(u[n..]), Blocks(r));
      } else {
        Tail2(u, r);
        EndsLikeUnpreTail(u, 1);
        BlocksAppend(u[1..], r);
      }
    }
  }

  // ---------------------------------------------------------------- block by block

  /** A block of a text, with the marks of its characters. */
  datatype Block = Block(text: string, kept: seq<bool>, quoted: seq<bool>) {
    predicate Valid() {
      |kept| == |text| == |quoted|
    }

    /** Nothing is dropped in it. */
    predicate Whole() {
      forall i | 0 <= i < |kept| :: kept[i]
    }

    /** It has no character in common with a matched blockquote. */
    predicate Unquoted() {
      forall i | 0 <= i < |quoted| :: !quoted[i]
    }
  }

  function MarkedBlocks(s: string, kept: seq<bool>, quoted: seq<bool>): (r: seq<Block>)
    requires |kept| == |s| == |quoted|
    ensures forall b | b in r :: b.Valid()
    decreases |s|
  {
    if s == "" then []
    else
      var n := PreMatch(s);
      if n > 0 then [Block(s[..n], kept[..n], quoted[..n])] + MarkedBlocks(s[n..], kept[n..], quoted[n..])
      else MarkedBlocks(s[1..], kept[1..], quoted[1..])
  }

  /** The `<pre>` blocks of a message, with what the blockquote scan does to their characters. */
  function BlocksOfText(text: string): (r: seq<Block>)
    ensures forall b | b in r :: b.Valid()
  {
    MarkedBlocks(text, KeepMask(text), Quoted(text))
  }

  function Texts(bs: seq<Block>): seq<string> {
    if bs == [] then [] else [bs[0].text] + Texts(bs[1..])
  }

  /** What is left of the blocks is cut again, each for itself. */
  function CutAlone(bs: seq<Block>): seq<string>
    requires forall b | b in bs :: b.Valid()
  {
    if bs == [] then []
    else
      assert bs[0] in bs && bs[0].Valid();
      Blocks(Keep(bs[0].text, bs[0].kept)) + CutAlone(bs[1..])
  }

  lemma {:induction false} TextsAreBlocks(s: string, kept: seq<bool>, quoted: seq<bool>)
    requires |kept| == |s| == |quoted|
    ensures Texts(MarkedBlocks(s, kept, quoted)) == Blocks(s)
    decreases |s|
  {
    if s != "" {
      var n := PreMatch(s);
      BlocksStep(s);
      hide PreMatch, Blocks;
      if n > 0 {
        TextsAreBlocks(s[n..], kept[n..], quoted[n..]);
        var bs := MarkedBlocks(s[n..], kept[n..], quoted[n..]);
        assert ([Block(s[..n], kept[..n], quoted[..n])] + bs)[1..] == bs;
      } else {
        TextsAreBlocks(s[1..], kept[1..], quoted[1..]);
      }
    }
  }

  lemma BlockEnds(m: string)
    requires m != "" && PreMatch(m) == |m|
    ensures |m| > |UNPRE| && At(m[|m| - |UNPRE|..], UNPRE)
  {
    var rest := m[|PRE| + 1..];
    assert rest[Find(rest, UNPRE)..] == m[|m| - |UNPRE|..];
  }

  lemma {:induction false} DroppedIsSpace(s: string, kept: seq<bool>, e: Edge)
    requires |kept| == |s| && Fits(s, kept, e)
    ensures forall i | 0 <= i < |s| :: !kept[i] ==> IsSpace(s[i])
    decreases |s|
  {
    if s != "" {
      FitsTail(s, kept, e);
      hide Fits;
      DroppedIsSpace(s[1..], kept[1..], if kept[0] then EdgeAfter(s[0]) else if e.Closed? then Closed else Hole);
    }
  }

  lemma UnpreIsKept(m: string, kept: seq<bool>)
    requires |kept| == |m| && m != "" && PreMatch(m) == |m|
    requires forall i | 0 <= i < |m| :: !kept[i] ==> IsSpace(m[i])
    ensures EndsLikeUnpre(Keep(m, kept))
  {
    BlockEnds(m);
    var k := |m| - |UNPRE|;
    var u := m[k..];
    forall i | 0 <= i < |UNPRE| ensures kept[k..][i] {
      assert u[i] == m[k + i] && Lower(u[i]) == UNPRE[i];
      UnpreHasInk(u[i], i);
    }
    hide At, PreMatch;
    KeepAll(u, kept[k..]);
    assert m == m[..k] + u && kept == kept[..k] + kept[k..];
    KeepConcat(m[..k], kept[..k], u, kept[k..]);
    EndsLike(Keep(m[..k], kept[..k]), u);
  }

  lemma UnpreHasInk(c: char, i: nat)
    requires i < |UNPRE| && Lower(c) == UNPRE[i]
    ensures !IsSpace(c)
  {
  }

  lemma EndsLike(a: string, u: string)
    requires |u| == |UNPRE| && At(u, UNPRE)
    ensures EndsLikeUnpre(a + u)
  {
  }

  lemma FitsBehind(s: string, kept: seq<bool>, e: Edge, n: nat)
    requires |kept| == |s| && n <= |s| && Fits(s, kept, e)
    ensures exists f: Edge :: Fits(s[n..], kept[n..], f)
    decreases |s|
  {
    if n == 0 {
      assert s[0..] == s && kept[0..] == kept;
    } else {
      FitsTail(s, kept, e);
      hide Fits;
      FitsBehind(s[1..], kept[1..], if kept[0] then EdgeAfter(s[0]) else if e.Closed? then Closed else Hole, n - 1);
      TailOfTail(s, n);
      TailOfTail(kept, n);
    }
  }

  lemma CopiedBlocks(s: string, kept: seq<bool>, e: Edge)
    requires |kept| == |s| && s != "" && kept[0] && Fits(s, kept, e) && PreMatch(s) == 0
    ensures Blocks(Keep(s, kept)) == Blocks(Keep(s[1..], kept[1..]))
  {
    var y := Keep(s, kept);
    assert y[1..] == Keep(s[1..], kept[1..]);
    hide PreMatch, Blocks, Fits;
    assert PreMatch(y) == 0 by {
      if PreMatch(y) > 0 {
        MatchWasThere(s, kept, e);
      }
    }
    BlocksStep(y);
  }

  /** The blocks behind the pass are those of what is left of each block, and no others. */
  lemma {:induction false} CutOneByOne(s: string, kept: seq<bool>, quoted: seq<bool>, e: Edge)
    requires |kept| == |s| == |quoted| && Fits(s, kept, e)
    ensures Blocks(Keep(s, kept)) == CutAlone(MarkedBlocks(s, kept, quoted))
    decreases |s|
  {
    if s != "" {
      var n := PreMatch(s);
      if n > 0 {
        CutBlock(s, kept, quoted, e, n);
      } else if kept[0] {
        CopiedBlocks(s, kept, e);
        FitsTail(s, kept, e);
        hide PreMatch, Blocks, Fits, Keep;
        CutOneByOne(s[1..], kept[1..], quoted[1..], EdgeAfter(s[0]));
      } else {
        FitsTail(s, kept, e);
        assert Keep(s, kept) == Keep(s[1..], kept[1..]);
        hide PreMatch, Blocks, Fits, Keep;
        CutOneByOne(s[1..], kept[1..], quoted[1..], if e.Closed? then Closed else Hole);
      }
    }
  }

  lemma KeepSplit(s: string, kept: seq<bool>, n: nat)
    requires |kept| == |s| && n <= |s|
    ensures Keep(s, kept) == Keep(s[..n], kept[..n]) + Keep(s[n..], kept[n..])
  {
    assert s == s[..n] + s[n..] && kept == kept[..n] + kept[n..];
    hide Keep;
    KeepConcat(s[..n], kept[..n], s[n..], kept[n..]);
  }

  lemma CutAloneStep(s: string, kept: seq<bool>, quoted: seq<bool>, n: nat)
    requires |kept| == |s| == |quoted| && n > 0 && n == PreMatch(s)
    ensures CutAlone(MarkedBlocks(s, kept, quoted)) ==
            Blocks(Keep(s[..n], kept[..n])) + CutAlone(MarkedBlocks(s[n..], kept[n..], quoted[n..]))
  {
    hide PreMatch, Blocks, Keep;
    var b, bs := Block(s[..n], kept[..n], quoted[..n]), MarkedBlocks(s[n..], kept[n..], quoted[n..]);
    assert MarkedBlocks(s, kept, quoted) == [b] + bs;
    assert ([b] + bs)[0] == b && ([b] + bs)[1..] == bs;
  }

  lemma BlockLeftovers(s: string, kept: seq<bool>, e: Edge, n: nat)
    requires |kept| == |s| && Fits(s, kept, e) && n > 0 && n == PreMatch(s)
    ensures EndsLikeUnpre(Keep(s[..n], kept[..n]))
  {
    MatchWhole(s, n);
    DroppedIsSpace(s, kept, e);
    assert forall i | 0 <= i < n :: s[..n][i] == s[i] && kept[..n][i] == kept[i];
    hide PreMatch, Fits;
    UnpreIsKept(s[..n], kept[..n]);
  }

  lemma {:induction false} CutBlock(s: string, kept: seq<bool>, quoted: seq<bool>, e: Edge, n: nat)
    requires |kept| == |s| == |quoted| && Fits(s, kept, e) && n > 0 && n == PreMatch(s)
    ensures Blocks(Keep(s, kept)) == CutAlone(MarkedBlocks(s, kept, quoted))
    decreases |s|, 0
  {
    hide PreMatch, Blocks, Fits, MarkedBlocks, Keep, CutAlone, EndsLikeUnpre;
    FitsBehind(s, kept, e, n);
    var f: Edge :| Fits(s[n..], kept[n..], f);
    CutOneByOne(s[n..], kept[n..], quoted[n..], f);
    CutAloneStep(s, kept, quoted, n);
    KeepSplit(s, kept, n);
    BlockLeftovers(s, kept, e, n);
    BlocksAppend(Keep(s[..n], kept[..n]), Keep(s[n..], kept[n..]));
  }

  /**
   * The `<pre>` blocks of a polished message, exactly: take the blocks of the message one by one, drop what the blockquote
   * pass drops in them, and cut what is left for itself.
   */
  lemma BlocksOneByOne(text: string)
    ensures Texts(BlocksOfText(text)) == Blocks(text)
    ensures Blocks(PolishMessageText(text)) == CutAlone(BlocksOfText(text))
  {
    TextsAreBlocks(text, KeepMask(text), Quoted(text));
    BlocksVerbatim(text);
    KeptIsTrimmed(text);
    KeptFits(text, Firm);
    CutOneByOne(text, KeepMask(text), Quoted(text), Firm);
  }

  // ---------------------------------------------------------------- which blocks stay verbatim

  lemma {:induction false} MarkedAreBlocks(s: string, kept: seq<bool>, quoted: seq<bool>)
    requires |kept| == |s| == |quoted|
    ensures forall b | b in MarkedBlocks(s, kept, quoted) :: b.text != "" && PreMatch(b.text) == |b.text|
    decreases |s|
  {
    if s != "" {
      var n := PreMatch(s);
      if n > 0 {
        MatchWhole(s, n);
        hide PreMatch;
        MarkedAreBlocks(s[n..], kept[n..], quoted[n..]);
      } else {
        assert MarkedBlocks(s, kept, quoted) == MarkedBlocks(s[1..], kept[1..], quoted[1..]);
        hide PreMatch, MarkedBlocks;
        MarkedAreBlocks(s[1..], kept[1..], quoted[1..]);
      }
    }
  }

  lemma WholeIsCutOut(b: Block)
    requires b.Valid() && b.Whole() && b.text != "" && PreMatch(b.text) == |b.text|
    ensures Blocks(Keep(b.text, b.kept)) == [b.text]
  {
    KeepAll(b.text, b.kept);
    OneBlock(b.text);
  }

  function Length(xs: seq<string>): nat {
    if xs == [] then 0 else |xs[0]| + Length(xs[1..])
  }

  lemma {:induction false} LengthConcat(a: seq<string>, b: seq<string>)
    ensures Length(a + b) == Length(a) + Length(b)
  {
    if a == [] {
      assert a + b == b;
    } else {
      assert (a + b)[1..] == a[1..] + b;
      LengthConcat(a[1..], b);
    }
  }

  lemma {:induction false} BlocksFit(s: string)
    ensures Length(Blocks(s)) <= |s|
    decreases |s|
  {
    if s != "" {
      BlocksStep(s);
      var n := PreMatch(s);
      hide PreMatch, Blocks;
      if n > 0 {
        BlocksFit(s[n..]);
        assert ([s[..n]] + Blocks(s[n..]))[1..] == Blocks(s[n..]);
      } else {
        BlocksFit(s[1..]);
      }
    } else {
      assert Blocks("") == [];
    }
  }

  lemma {:induction false} DroppingShortens(bs: seq<Block>)
    requires forall b | b in bs :: b.Valid()
    ensures Length(CutAlone(bs)) <= Length(Texts(bs))
    ensures Length(CutAlone(bs)) == Length(Texts(bs)) ==> forall b | b in bs :: b.Whole()
  {
    if bs != [] {
      var b := bs[0];
      assert b in bs;
      DroppingShortens(bs[1..]);
      KeepShorter(b.text, b.kept);
      BlocksFit(Keep(b.text, b.kept));
      LengthConcat(Blocks(Keep(b.text, b.kept)), CutAlone(bs[1..]));
      assert ([b.text] + Texts(bs[1..]))[1..] == Texts(bs[1..]);
      hide Blocks, Keep;
    }
  }

  lemma {:induction false} WholeBlocksCutOut(bs: seq<Block>)
    requires forall b | b in bs :: b.Valid() && b.Whole() && b.text != "" && PreMatch(b.text) == |b.text|
    ensures CutAlone(bs) == Texts(bs)
  {
    hide PreMatch, Blocks, Keep;
    if bs != [] {
      assert bs[0] in bs;
      WholeIsCutOut(bs[0]);
      WholeBlocksCutOut(bs[1..]);
    }
  }

  /** The blocks of a message come out verbatim if and only if the blockquote pass drops no character inside one. */
  lemma BlocksVerbatimIff(text: string)
    ensures Blocks(PolishMessageText(text)) == Blocks(text) <==> forall b | b in BlocksOfText(text) :: b.Whole()
  {
    BlocksOneByOne(text);
    MarkedAreBlocks(text, KeepMask(text), Quoted(text));
    var bs := BlocksOfText(text);
    DroppingShortens(bs);
    hide PreMatch, Blocks, PolishMessageText;
    if forall b | b in bs :: b.Whole() {
      WholeBlocksCutOut(bs);
    }
  }

  /** `a` is `b` with some members left out. */
  ghost predicate Within(a: seq<string>, b: seq<string>) {
    a == [] || (b != [] && ((a[0] == b[0] && Within(a[1..], b[1..])) || Within(a, b[1..])))
  }

  lemma {:induction false} WithinMore(a: seq<string>, x: seq<string>, b: seq<string>)
    requires Within(a, b)
    ensures Within(a, x + b)
    decreases |x|
  {
    if x == [] {
      assert x + b == b;
    } else {
      assert (x + b)[1..] == x[1..] + b;
      WithinMore(a, x[1..], b);
    }
  }

  /** The blocks that have nothing in common with a matched blockquote. */
  function UnquotedTexts(bs: seq<Block>): seq<string> {
    if bs == [] then [] else (if bs[0].Unquoted() then [bs[0].text] else []) + UnquotedTexts(bs[1..])
  }

  lemma {:induction false} UnquotedIsWhole(s: string, kept: seq<bool>, quoted: seq<bool>)
    requires |kept| == |s| && DropsQuoted(quoted, kept)
    ensures forall b | b in MarkedBlocks(s, kept, quoted) :: b.Unquoted() ==> b.Whole()
    decreases |s|
  {
    hide PreMatch;
    if s != "" {
      var n := PreMatch(s);
      if n > 0 {
        UnquotedIsWhole(s[n..], kept[n..], quoted[n..]);
      } else {
        UnquotedIsWhole(s[1..], kept[1..], quoted[1..]);
      }
    }
  }

  lemma {:induction false} UnquotedAreWithin(bs: seq<Block>)
    requires forall b | b in bs ::
      b.Valid() && (b.Unquoted() ==> b.Whole()) && b.text != "" && PreMatch(b.text) == |b.text|
    ensures Within(UnquotedTexts(bs), CutAlone(bs))
  {
    hide PreMatch, Blocks, Keep;
    if bs != [] {
      var b := bs[0];
      assert b in bs;
      UnquotedAreWithin(bs[1..]);
      var rest, cut := UnquotedTexts(bs[1..]), CutAlone(bs[1..]);
      if b.Unquoted() {
        WholeIsCutOut(b);
        assert ([b.text] + rest)[1..] == rest && ([b.text] + cut)[1..] == cut;
      } else {
        WithinMore(rest, Blocks(Keep(b.text, b.kept)), cut);
        assert [] + rest == rest;
      }
    }
  }

  /** Every block that no matched blockquote overlaps comes out verbatim, and they come out in order. */
  lemma UnquotedBlocksStay(text: string)
    ensures Within(UnquotedTexts(BlocksOfText(text)), Blocks(PolishMessageText(text)))
  {
    BlocksOneByOne(text);
    MarkedAreBlocks(text, KeepMask(text), Quoted(text));
    UnquotedIsKept(text);
    UnquotedIsWhole(text, KeepMask(text), Quoted(text));
    hide PreMatch, Blocks, PolishMessageText;
    UnquotedAreWithin(BlocksOfText(text));
  }

  // ---------------------------------------------------------------- messages without blocks

  /** The blockquote pass makes no block. */
  lemma {:induction false} BlockWasThere(s: string, kept: seq<bool>, e: Edge)
    requires |kept| == |s| && Fits(s, kept, e) && HasBlock(Keep(s, kept))
    ensures HasBlock(s)
    decreases |s|
  {
    assert s != "";
    FitsTail(s, kept, e);
    hide Fits, PreMatch;
    if !kept[0] {
      assert Keep(s, kept) == Keep(s[1..], kept[1..]);
      BlockWasThere(s[1..], kept[1..], if e.Closed? then Closed else Hole);
    } else if PreMatch(Keep(s, kept)) > 0 {
      MatchWasThere(s, kept, e);
    } else {
      assert Keep(s, kept)[1..] == Keep(s[1..], kept[1..]);
      BlockWasThere(s[1..], kept[1..], EdgeAfter(s[0]));
    }
  }

  /**
   * A message without any `<pre>` block has none behind the blockquote pass either, and comes out clean: no blanks at line ends, no
   * empty line twice, no outer space.
   */
  lemma MessageWithoutBlocksIsClean(text: string)
    requires !HasBlock(text)
    ensures !HasBlock(TrimQuotes(text)) && Blocks(PolishMessageText(text)) == []
    ensures var y := PolishMessageText(text);
            LinesTight(y) && NoTriple(y) && EndsInInk(y) && (y != "" ==> !IsSpace(y[0]))
  {
    if HasBlock(TrimQuotes(text)) {
      KeptIsTrimmed(text);
      KeptFits(text, Firm);
      BlockWasThere(text, KeepMask(text), Firm);
    }
    PlainTextClean(text);
    BlocksVerbatim(text);
    PlainSplit(TrimQuotes(text));
  }
}
