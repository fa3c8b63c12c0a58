// The blockquote pass of src/ui/design-system.ts: it is idempotent, and thinning does not upset its result.
module MessageQuotes {
  import opened MessageText
  import opened MessageThinning

  // ---------------------------------------------------------------- blockquotes that need no trimming

  /** Where the blockquote scan stands: outside, right behind an opening tag, further inside. */
  datatype Mode = Outside | Front | Inside

  /** Reading on in mode `m`, every blockquote that gets closed is already trimmed. */
  ghost predicate Tight(s: string, m: Mode)
    decreases |s|
  {
    if s == "" then true
    else match m
      case Outside =>
        if At(s, OPEN) && Has(s[|OPEN|..], CLOSE) then Tight(s[|OPEN|..], Front) else Tight(s[1..], Outside)
      case Front =>
        if At(s, CLOSE) then Tight(s[|CLOSE|..], Outside) else !IsSpace(s[0]) && Tight(s[1..], Inside)
      case Inside =>
        if At(s, CLOSE) then Tight(s[|CLOSE|..], Outside)
        else
          && (IsSpace(s[0]) ==> !At(s[1..], CLOSE))
          && (IsBlank(s[0]) && |s| > 1 ==> !IsEol(s[1]))
          && Tight(s[1..], Inside)
  }

  /** In a trimmed blockquote no white space stands in front of the closing tag, however much thinning removes. */
  lemma {:induction false} NoSpaceBeforeClose(z: string, y: string, b: Before)
    requires Thinned(z, y, b) && Tight(z, Inside) && z != "" && IsSpace(z[0]) && At(y, CLOSE)
    ensures false
    decreases |z|
  {
    Tags();
    AtHead(z, CLOSE);
    AtHead(y, CLOSE);
    if z[1..] != "" {
      if IsSpace(z[1]) {
        NoSpaceBeforeClose(z[1..], y, Gap);
      } else {
        TagBack(z[1..], y, Gap, CLOSE);
      }
    }
  }

  lemma {:induction false} TightThinned(z: string, y: string, b: Before, m: Mode)
    requires Thinned(z, y, b) && Tight(z, m)
    ensures Tight(y, m)
    decreases |z|
  {
    Tags();
    if z == "" || y == "" {
    } else if m.Outside? && At(z, OPEN) && Has(z[|OPEN|..], CLOSE) {
      TagForth(z, y, b, OPEN);
      HasForth(z[|OPEN|..], y[|OPEN|..], Solid, CLOSE);
      TightThinned(z[|OPEN|..], y[|OPEN|..], Solid, Front);
    } else if !m.Outside? && At(z, CLOSE) {
      TagForth(z, y, b, CLOSE);
      TightThinned(z[|CLOSE|..], y[|CLOSE|..], Solid, Outside);
    } else if IsSpace(z[0]) && !b.Blank? && Thinned(z[1..], y, Gap) {
      AtHead(z, OPEN);
      TightThinned(z[1..], y, Gap, m);
    } else {
      TightKept(z, y, b, m);
    }
  }

  /** The step of `TightThinned` in which the first character stays and is not the front of a tag that matters. */
  lemma TightKept(z: string, y: string, b: Before, m: Mode)
    requires Thinned(z, y, b) && Tight(z, m) && z != "" && y != ""
    requires y[0] == z[0] && Thinned(z[1..], y[1..], AfterChar(z[0]))
    requires m.Outside? ==> !(At(z, OPEN) && Has(z[|OPEN|..], CLOSE))
    requires !m.Outside? ==> !At(z, CLOSE)
    ensures Tight(y, m)
    decreases |z|, 0
  {
    Tags();
    if m.Outside? {
      if At(y, OPEN) && Has(y[|OPEN|..], CLOSE) {
        AtHead(y, OPEN);
        TagBack(z, y, b, OPEN);
        HasBack(z[|OPEN|..], y[|OPEN|..], Solid, CLOSE);
      }
      TightThinned(z[1..], y[1..], AfterChar(z[0]), Outside);
    } else {
      if At(y, CLOSE) {
        AtHead(y, CLOSE);
        TagBack(z, y, b, CLOSE);
      }
      TightThinned(z[1..], y[1..], AfterChar(z[0]), Inside);
      if m.Inside? && IsSpace(z[0]) && At(y[1..], CLOSE) {
        AtHead(y[1..], CLOSE);
        if IsSpace(z[1]) {
          NoSpaceBeforeClose(z[1..], y[1..], AfterChar(z[0]));
        } else {
          TagBack(z[1..], y[1..], AfterChar(z[0]), CLOSE);
        }
      }
    }
  }

  // ---------------------------------------------------------------- the blockquote pass leaves tight text

  lemma {:induction false} StripFixed(s: string)
    requires LinesTight(s)
    ensures StripLineEnds(s) == s
  {
    if s != "" {
      StripFixed(s[1..]);
      if IsBlank(s[0]) && BlankToEol(s[1..]) {
        BlankRunContradiction(s[1..]);
      }
    }
  }

  lemma {:induction false} BlankRunContradiction(s: string)
    requires LinesTight(s) && BlankToEol(s) && s != "" && IsBlank(s[0])
    ensures false
  {
    if |s| > 1 && IsBlank(s[1]) {
      BlankRunContradiction(s[1..]);
    }
  }

  lemma {:induction false} TrimEndShape(s: string)
    ensures TrimEnd(s) <= s && EndsInInk(TrimEnd(s))
    ensures AllSpace(s[|TrimEnd(s)|..])
  {
    if !AllSpace(s) {
      TrimEndShape(s[1..]);
      var t := TrimEnd(s[1..]);
      assert TrimEnd(s) == [s[0]] + t;
      assert s == [s[0]] + s[1..];
      assert s[|t| + 1..] == s[1..][|t|..];
      assert s[1..][0..] == s[1..];
      AllSpaceTail(s);
    }
  }

  lemma AllSpaceTail(s: string)
    requires s != ""
    ensures AllSpace(s) <==> IsSpace(s[0]) && AllSpace(s[1..])
  {
    assert s == [s[0]] + s[1..];
  }

  lemma {:induction false} TrimEndFixed(s: string)
    requires EndsInInk(s)
    ensures TrimEnd(s) == s
  {
    if s != "" {
      assert IsSpace(s[|s| - 1]) == false;
      TrimEndFixed(s[1..]);
    }
  }

  lemma {:induction false} TightPrefix(s: string, p: string)
    requires LinesTight(s) && p <= s && EndsInInk(p)
    ensures LinesTight(p)
  {
    if p != "" {
      assert p[1..] <= s[1..];
      TightPrefix(s[1..], p[1..]);
    }
  }

  lemma {:induction false} HasSuffix(s: string, k: nat, t: string)
    requires k <= |s| && Has(s[k..], t)
    ensures Has(s, t)
  {
    if k > 0 {
      assert s[1..][k - 1..] == s[k..];
      HasSuffix(s[1..], k - 1, t);
    } else {
      assert s[0..] == s;
    }
  }

  lemma {:induction false} HasPrefix(s: string, p: string, t: string)
    requires p <= s && Has(p, t)
    ensures Has(s, t)
  {
    if !At(p, t) {
      assert p[1..] <= s[1..];
      HasPrefix(s[1..], p[1..], t);
    }
  }

  /** What trimming a blockquote's content leaves. */
  lemma TrimQuoteShape(c: string, t: string)
    requires IsTag(t)
    ensures var q := TrimQuote(c);
            && LinesTight(q) && EndsInInk(q)
            && (q != "" ==> !IsSpace(q[0]))
            && (Has(q, t) ==> Has(c, t))
  {
    var s := StripLineEnds(c);
    var e := TrimEnd(s);
    StripTight(c);
    TrimEndShape(s);
    TightPrefix(s, e);
    TrimStartTight(e);
    if Has(TrimStart(e), t) {
      TrimStartHas(e, t);
      HasPrefix(s, e, t);
      StripThins(c, Solid);
      HasBack(c, s, Solid, t);
    }
  }

  lemma {:induction false} TrimStartTight(s: string)
    requires LinesTight(s) && EndsInInk(s)
    ensures var q := TrimStart(s); LinesTight(q) && EndsInInk(q) && (q != "" ==> !IsSpace(q[0]))
  {
    if s != "" && IsSpace(s[0]) {
      TrimStartTight(s[1..]);
    }
  }

  lemma {:induction false} TrimStartHas(s: string, t: string)
    requires Has(TrimStart(s), t)
    ensures Has(s, t)
  {
    if s != "" && IsSpace(s[0]) {
      TrimStartHas(s[1..], t);
    }
  }

  /** A tag never straddles a place where a '<' stands. */
  lemma TagBeforeAngle(c: string, r: string, t: string)
    requires IsTag(t) && c != "" && r != "" && r[0] == '<' && At(c + r, t)
    ensures At(c, t)
  {
    assert |t| <= |c| by {
      assert (c + r)[|c|] == '<';
    }
    forall i | 0 <= i < |t| ensures Lower(c[i]) == t[i] {
      assert (c + r)[i] == c[i];
    }
  }

  lemma {:induction false} InsideTight(c: string, k: string, r: string)
    requires !Has(c, CLOSE) && LinesTight(c) && EndsInInk(c)
    requires At(k, CLOSE) && |k| == |CLOSE| && Tight(r, Outside)
    ensures Tight(c + (k + r), Inside)
    decreases |c|
  {
    Tags();
    AtHead(k, CLOSE);
    var s := c + (k + r);
    if c == "" {
      assert s == k + r;
      CloseStep(k, r, Inside);
    } else {
      Tail2(c, k + r);
      InsideTight(c[1..], k, r);
      if At(s, CLOSE) {
        TagBeforeAngle(c, k + r, CLOSE);
      }
      if IsSpace(s[0]) && At(s[1..], CLOSE) {
        TagBeforeAngle(c[1..], k + r, CLOSE);
      }
    }
  }

  lemma FrontTight(c: string, k: string, r: string)
    requires !Has(c, CLOSE) && LinesTight(c) && EndsInInk(c) && (c != "" ==> !IsSpace(c[0]))
    requires At(k, CLOSE) && |k| == |CLOSE| && Tight(r, Outside)
    ensures Tight(c + (k + r), Front)
  {
    var s := c + (k + r);
    if c == "" {
      assert s == k + r;
      CloseStep(k, r, Front);
    } else {
      assert !At(s, CLOSE) by { NoCloseYet(c, k, r); }
      assert Tight(c[1..] + (k + r), Inside) by { InsideTight(c[1..], k, r); }
      Tail2(c, k + r);
      FrontStep(s);
    }
  }

  lemma CloseStep(k: string, r: string, m: Mode)
    requires At(k, CLOSE) && |k| == |CLOSE| && Tight(r, Outside) && !m.Outside?
    ensures Tight(k + r, m)
  {
    var s := k + r;
    assert At(s, CLOSE) && s[|CLOSE|..] == r;
  }

  lemma FrontStep(s: string)
    requires s != "" && !At(s, CLOSE) && !IsSpace(s[0]) && Tight(s[1..], Inside)
    ensures Tight(s, Front)
  {
    hide At, IsSpace;
  }

  lemma NoCloseYet(c: string, k: string, r: string)
    requires c != "" && !Has(c, CLOSE) && At(k, CLOSE)
    ensures !At(c + (k + r), CLOSE)
  {
    if At(c + (k + r), CLOSE) {
      Tags();
      AtHead(k, CLOSE);
      TagBeforeAngle(c, k + r, CLOSE);
    }
  }

  lemma {:induction false} FindFirst(s: string, t: string)
    requires IsTag(t) && Has(s, t)
    ensures !Has(s[..Find(s, t)], t)
  {
    if !At(s, t) {
      FindFirst(s[1..], t);
      var n := Find(s, t);
      assert s[..n][1..] == s[1..][..n - 1];
    }
  }

  lemma {:induction false} QuotesWordBack(s: string, w: string)
    requires Inner(w) && w != "" && At(TrimQuotes(s), w)
    ensures At(s, w) && TrimQuotes(s)[|w|..] == TrimQuotes(s[|w|..])
    decreases |s|
  {
    var q := TrimQuotes(s);
    AtHead(q, w);
    AtHead(s, w);
    AtHead(s, OPEN);
    assert q[1..] == TrimQuotes(s[1..]);
    if |w| > 1 {
      QuotesWordBack(s[1..], w[1..]);
      assert q[1..][|w| - 1..] == q[|w|..] && s[1..][|w| - 1..] == s[|w|..];
    }
  }

  lemma {:induction false} QuotesHasBack(s: string, t: string)
    requires t == CLOSE && Has(TrimQuotes(s), t)
    ensures Has(s, t)
    decreases |s|
  {
    Tags();
    if At(s, OPEN) && Has(s[|OPEN|..], CLOSE) {
      HasSuffix(s, |OPEN|, t);
    } else {
      var q := TrimQuotes(s);
      assert q[1..] == TrimQuotes(s[1..]);
      if At(q, t) {
        AtHead(q, t);
        AtHead(s, t);
        QuotesWordBack(s[1..], t[1..]);
      } else {
        QuotesHasBack(s[1..], t);
      }
    }
  }

  lemma {:induction false} HasAppend(c: string, k: string, r: string, t: string)
    requires t != "" && At(k, t)
    ensures Has(c + (k + r), t)
    decreases |c|
  {
    var s := c + (k + r);
    if c == "" {
      assert s == k + r && At(s, t);
    } else {
      assert s[1..] == c[1..] + (k + r);
      HasAppend(c[1..], k, r, t);
    }
  }

  /** The first blockquote of `s`: opening tag, content, closing tag, the text behind it. */
  lemma CutQuote(s: string) returns (o: string, c: string, k: string, r: string)
    requires At(s, OPEN) && Has(s[|OPEN|..], CLOSE)
    ensures At(o, OPEN) && |o| == |OPEN| && At(k, CLOSE) && |k| == |CLOSE| && !Has(c, CLOSE)
    ensures s == o + (c + (k + r)) && |r| < |s|
    ensures TrimQuotes(s) == o + (TrimQuote(c) + (k + TrimQuotes(r)))
    ensures c == s[|OPEN|..][..Find(s[|OPEN|..], CLOSE)]
    ensures r == s[|OPEN|..][Find(s[|OPEN|..], CLOSE) + |CLOSE|..]
  {
    var rest := s[|OPEN|..];
    var n := Find(rest, CLOSE);
    o, c, k, r := s[..|OPEN|], rest[..n], rest[n..n + |CLOSE|], rest[n + |CLOSE|..];
    assert !Has(c, CLOSE) by { Tags(); FindFirst(rest, CLOSE); }
    assert At(k, CLOSE) by { AtSlice(rest, n, CLOSE); }
    assert At(o, OPEN) by { assert s == s[0..]; AtSlice(s, 0, OPEN); }
    assert TrimQuotes(s) == o + TrimQuote(c) + k + TrimQuotes(r) by { TrimQuotesUnfold(s, rest, n); }
    hide *;
    assert s == o + (c + (k + r)) by { CutInFour(s, |OPEN|, n, |CLOSE|); }
    Reassociate(o, TrimQuote(c), k, TrimQuotes(r));
  }

  lemma TrimQuotesUnfold(s: string, rest: string, n: nat)
    requires At(s, OPEN) && rest == s[|OPEN|..] && Has(rest, CLOSE) && n == Find(rest, CLOSE)
    ensures n + |CLOSE| <= |rest|
    ensures TrimQuotes(s) == s[..|OPEN|] + TrimQuote(rest[..n]) + rest[n..n + |CLOSE|] + TrimQuotes(rest[n + |CLOSE|..])
  {
    hide Has, Find, TrimQuote;
  }

  lemma AtSlice(s: string, n: nat, w: string)
    requires n + |w| <= |s| && At(s[n..], w)
    ensures At(s[n..n + |w|], w)
  {
    forall i | 0 <= i < |w| ensures Lower(s[n..n + |w|][i]) == w[i] {
      assert s[n..n + |w|][i] == s[n..][i];
    }
  }

  lemma CutInFour(s: string, i: nat, n: nat, j: nat)
    requires i + n + j <= |s|
    ensures s == s[..i] + (s[i..][..n] + (s[i..][n..n + j] + s[i..][n + j..]))
  {
  }

  lemma Reassociate(a: string, b: string, c: string, d: string)
    ensures a + b + c + d == a + (b + (c + d))
  {
  }

  lemma {:induction false} TrimQuotesTight(s: string)
    ensures Tight(TrimQuotes(s), Outside)
    decreases |s|
  {
    if s == "" {
    } else if At(s, OPEN) && Has(s[|OPEN|..], CLOSE) {
      var o, c, k, r := CutQuote(s);
      TrimQuotesTight(r);
      assert IsTag(CLOSE) by { Tags(); }
      TrimQuoteShape(c, CLOSE);
      QuoteIsTight(o, TrimQuote(c), k, TrimQuotes(r));
    } else {
      TrimQuotesTight(s[1..]);
      CopiedIsTight(s);
    }
  }

  lemma CopiedIsTight(s: string)
    requires s != "" && !(At(s, OPEN) && Has(s[|OPEN|..], CLOSE)) && Tight(TrimQuotes(s[1..]), Outside)
    ensures Tight(TrimQuotes(s), Outside)
  {
    var q := TrimQuotes(s);
    assert q == [s[0]] + TrimQuotes(s[1..]) && q[1..] == TrimQuotes(s[1..]);
    if At(q, OPEN) && Has(q[|OPEN|..], CLOSE) {
      assert IsTag(OPEN) by { Tags(); }
      CopiedTag(s, OPEN);
      QuotesHasBack(s[|OPEN|..], CLOSE);
    }
  }

  lemma CopiedTag(s: string, t: string)
    requires s != "" && IsTag(t) && |t| > 1 && At(TrimQuotes(s), t)
    requires TrimQuotes(s) == [s[0]] + TrimQuotes(s[1..])
    ensures At(s, t) && TrimQuotes(s)[|t|..] == TrimQuotes(s[|t|..])
  {
    var q := TrimQuotes(s);
    assert q[1..] == TrimQuotes(s[1..]);
    AtHead(q, t);
    AtHead(s, t);
    QuotesWordBack(s[1..], t[1..]);
    assert q[1..][|t| - 1..] == q[|t|..] && s[1..][|t| - 1..] == s[|t|..];
  }

  lemma QuoteIsTight(o: string, c: string, k: string, r: string)
    requires At(o, OPEN) && |o| == |OPEN|
    requires !Has(c, CLOSE) && LinesTight(c) && EndsInInk(c) && (c != "" ==> !IsSpace(c[0]))
    requires At(k, CLOSE) && |k| == |CLOSE| && Tight(r, Outside)
    ensures Tight(o + (c + (k + r)), Outside)
  {
    FrontTight(c, k, r);
    HasAppend(c, k, r, CLOSE);
    var s := o + (c + (k + r));
    assert At(s, OPEN) && s[|OPEN|..] == c + (k + r);
  }

  // ---------------------------------------------------------------- tight text stays as it is

  lemma {:induction false} InsideContent(s: string)
    requires Tight(s, Inside) && Has(s, CLOSE)
    ensures var n := Find(s, CLOSE);
            LinesTight(s[..n]) && EndsInInk(s[..n]) && Tight(s[n + |CLOSE|..], Outside)
  {
    hide At;
    var n := Find(s, CLOSE);
    if !At(s, CLOSE) {
      InsideContent(s[1..]);
      ShiftSlices(s, n, |CLOSE|);
    }
  }

  lemma FrontContent(s: string)
    requires Tight(s, Front) && Has(s, CLOSE)
    ensures var n := Find(s, CLOSE);
            TrimQuote(s[..n]) == s[..n] && Tight(s[n + |CLOSE|..], Outside)
  {
    var n := Find(s, CLOSE);
    var c := s[..n];
    if !At(s, CLOSE) {
      InsideContent(s[1..]);
      ShiftSlices(s, n, |CLOSE|);
      assert LinesTight(c) && EndsInInk(c);
    }
    hide At, Has, Find, Tight;
    StripFixed(c);
    TrimEndFixed(c);
  }

  lemma {:induction false} TightFixed(s: string)
    requires Tight(s, Outside)
    ensures TrimQuotes(s) == s
    decreases |s|
  {
    if s == "" {
    } else if At(s, OPEN) && Has(s[|OPEN|..], CLOSE) {
      var o, c, k, r := CutQuote(s);
      assert TrimQuote(c) == c && Tight(r, Outside) by { FrontContent(s[|OPEN|..]); }
      TightFixed(r);
      hide *;
    } else {
      TightFixed(s[1..]);
    }
  }

  /** `trimBlockquoteContent` is idempotent, whatever the nesting of its tags. */
  lemma TrimQuotesIdempotent(s: string)
    ensures TrimQuotes(TrimQuotes(s)) == TrimQuotes(s)
  {
    TrimQuotesTight(s);
    TightFixed(TrimQuotes(s));
  }
}
