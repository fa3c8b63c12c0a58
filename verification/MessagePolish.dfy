// The theorems about the message passes of src/ui/design-system.ts.
module MessagePolish {
  import opened MessageText
  import opened MessageThinning
  import opened MessageQuotes

  // ---------------------------------------------------------------- a polished part is a fixed point

  ghost predicate PartStable(s: string) {
    LinesTight(s) && NoTriple(s) && EndsInInk(s)
  }

  lemma {:induction false} CollapseTight(s: string)
    requires LinesTight(s)
    ensures LinesTight(CollapseNewlines(s))
  {
    if s != "" {
      CollapseTight(s[1..]);
      if !StartsTripleNewline(s) {
        assert CollapseNewlines(s)[1..] == CollapseNewlines(s[1..]);
      }
    }
  }

  lemma {:induction false} CollapseNoTriple(s: string)
    ensures NoTriple(CollapseNewlines(s))
  {
    if s != "" {
      CollapseNoTriple(s[1..]);
      if !StartsTripleNewline(s) {
        assert CollapseNewlines(s)[1..] == CollapseNewlines(s[1..]);
        if |s| > 1 && s[0] == '\n' && s[1] == '\n' {
          assert CollapseNewlines(s[1..])[1..] == CollapseNewlines(s[2..]) by {
            assert s[1..][1..] == s[2..];
          }
        }
      }
    }
  }

  lemma {:induction false} NoTriplePrefix(s: string, p: string)
    requires NoTriple(s) && p <= s
    ensures NoTriple(p)
  {
    if p != "" {
      assert p[1..] <= s[1..];
      NoTriplePrefix(s[1..], p[1..]);
    }
  }

  lemma {:induction false} CollapseFixed(s: string)
    requires NoTriple(s)
    ensures CollapseNewlines(s) == s
  {
    if s != "" {
      CollapseFixed(s[1..]);
    }
  }

  lemma PolishPartStable(s: string)
    ensures PartStable(PolishPart(s))
  {
    var t := StripLineEnds(s);
    var u := CollapseNewlines(t);
    StripTight(s);
    CollapseTight(t);
    CollapseNoTriple(t);
    TrimEndShape(u);
    TightPrefix(u, TrimEnd(u));
    NoTriplePrefix(u, TrimEnd(u));
  }

  lemma StableFixed(s: string)
    requires PartStable(s)
    ensures PolishPart(s) == s
  {
    StripFixed(s);
    CollapseFixed(s);
    TrimEndFixed(s);
  }

  lemma {:induction false} StableTrimStart(s: string)
    requires PartStable(s)
    ensures PartStable(TrimStart(s)) && (TrimStart(s) != "" ==> !IsSpace(TrimStart(s)[0]))
  {
    if s != "" && IsSpace(s[0]) {
      StableTrimStart(s[1..]);
    }
  }

  // ---------------------------------------------------------------- how a text is cut

  ghost predicate HasBlock(s: string) {
    s != "" && (PreMatch(s) > 0 || HasBlock(s[1..]))
  }

  ghost predicate HasPreOpen(s: string) {
    s != "" && (AtPreOpen(s) || HasPreOpen(s[1..]))
  }

  /** The shape of what `SplitPre` returns. No text in front of a block has a `<pre` that could have started earlier. */
  ghost predicate WellCut(p: Pieces) {
    match p
    case Last(text) => !HasBlock(text)
    case More(text, block, rest) => !HasPreOpen(text) && block != "" && PreMatch(block) == |block| && WellCut(rest)
  }

  lemma {:induction false} FindLocal(c: string, r: string, r': string, t: string)
    requires t != "" && Has(c + r, t) && Find(c + r, t) + |t| == |c|
    ensures Has(c + r', t) && Find(c + r', t) == Find(c + r, t)
    decreases |c|
  {
    hide At;
    if At(c + r, t) {
      AtLocal(c, r, r', t);
    } else {
      if At(c + r', t) {
        AtLocal(c, r', r, t);
      }
      Tail2(c, r);
      Tail2(c, r');
      FindLocal(c[1..], r, r', t);
    }
  }

  lemma AtLocal(c: string, r: string, r': string, t: string)
    requires At(c + r, t) && |t| <= |c|
    ensures At(c + r', t)
  {
    forall i | 0 <= i < |t| ensures Lower((c + r')[i]) == t[i] {
      assert (c + r)[i] == (c + r')[i];
    }
  }

  /** Whether a block matches does not depend on what stands behind it. */
  lemma MatchLocal(m: string, r: string, r': string)
    requires m != "" && PreMatch(m + r) == |m|
    ensures PreMatch(m + r') == |m|
  {
    var k := |PRE| + 1;
    assert (m + r)[k..] == m[k..] + r && (m + r')[k..] == m[k..] + r';
    FindLocal(m[k..], r, r', UNPRE);
    AtLocal(m, r, r', PRE);
    assert (m + r)[|PRE|] == (m + r')[|PRE|];
  }

  lemma BlockShape(m: string)
    requires m != "" && PreMatch(m) == |m|
    ensures m[0] == '<' && m[|m| - 1] == '>'
  {
    var t := m[|PRE| + 1..];
    assert t[Find(t, UNPRE)..][5] == m[|m| - 1];
  }

  /** A `<pre` that is open in front of a block would have matched together with the block's end. */
  lemma OpenReachesBlock(a: string, m: string, r: string)
    requires AtPreOpen(a) && m != "" && PreMatch(m) == |m|
    ensures PreMatch(a + m + r) > 0
  {
    var k := |PRE| + 1;
    var s := a + m + r;
    var n := |a| - k + k + Find(m[k..], UNPRE);
    assert Has(s[k..], UNPRE) by {
      var t := m[k..];
      var u := t[Find(t, UNPRE)..];
      assert At(u + r, UNPRE) by { AtLocal(u, "", r, UNPRE); assert u + "" == u; }
      assert s[k..][n..] == u + r;
      HasSuffix(s[k..], n, UNPRE);
    }
    assert At(s, PRE) && s[|PRE|] == a[|PRE|];
  }

  lemma {:induction false} SplitWellCut(s: string)
    ensures WellCut(SplitPre(s)) && Flat(SplitPre(s)) == s
    decreases |s|
  {
    if s != "" {
      var n := PreMatch(s);
      if n > 0 {
        SplitWellCut(s[n..]);
        assert s[..n] != "" && PreMatch(s[..n]) == n by { MatchWhole(s, n); }
        hide PreMatch;
        assert s == "" + s[..n] + s[n..];
      } else {
        SplitWellCut(s[1..]);
        PushWellCut(s, SplitPre(s[1..]));
      }
    }
  }

  lemma MatchWhole(s: string, n: nat)
    requires 0 < n == PreMatch(s)
    ensures s[..n] != "" && PreMatch(s[..n]) == n
  {
    var m, r := s[..n], s[n..];
    assert s == m + r && m == m + "";
    MatchLocal(m, r, "");
  }

  /** The character `s[0]`, at which no block starts, may be put in front of a well-cut text. */
  lemma PushWellCut(s: string, p: Pieces)
    requires s != "" && PreMatch(s) == 0 && WellCut(p) && Flat(p) == s[1..]
    ensures WellCut(p.(text := [s[0]] + p.text)) && Flat(p.(text := [s[0]] + p.text)) == s
  {
    match p
    case Last(text) =>
      hide PreMatch;
      assert s == [s[0]] + text && s[1..] == text;
    case More(text, block, rest) =>
      var a := [s[0]] + text;
      assert s == a + block + Flat(rest) by { Regroup(s, text, block, Flat(rest)); }
      assert !AtPreOpen(a) by {
        if AtPreOpen(a) {
          OpenReachesBlock(a, block, Flat(rest));
        }
      }
      hide PreMatch, AtPreOpen;
      assert a[1..] == text;
  }

  lemma Regroup(s: string, a: string, m: string, r: string)
    requires s != "" && s[1..] == a + m + r
    ensures s == ([s[0]] + a) + m + r
  {
    assert s == [s[0]] + s[1..];
  }

  lemma {:induction false} PlainSplit(s: string)
    requires !HasBlock(s)
    ensures SplitPre(s) == Last(s)
  {
    if s != "" {
      PlainSplit(s[1..]);
    }
  }

  lemma {:induction false} BlockSplit(a: string, m: string, r: string)
    requires !HasPreOpen(a) && m != "" && PreMatch(m) == |m|
    ensures SplitPre(a + m + r) == More(a, m, SplitPre(r))
    decreases |a|
  {
    if a == "" {
      assert a + m == m;
      BlockInFront(m, r);
    } else {
      BlockShape(m);
      NoOpenAcross(a, m, r);
      BlockSplit(a[1..], m, r);
      SplitPush(a, m, r);
    }
  }

  lemma BlockInFront(m: string, r: string)
    requires m != "" && PreMatch(m) == |m|
    ensures SplitPre(m + r) == More("", m, SplitPre(r))
  {
    var s := m + r;
    assert PreMatch(s) == |m| by {
      assert m == m + "";
      MatchLocal(m, "", r);
    }
    hide PreMatch;
    assert s[..|m|] == m && s[|m|..] == r;
  }

  lemma SplitPush(a: string, m: string, r: string)
    requires a != "" && PreMatch(a + m + r) == 0 && SplitPre(a[1..] + m + r) == More(a[1..], m, SplitPre(r))
    ensures SplitPre(a + m + r) == More(a, m, SplitPre(r))
  {
    var s := a + m + r;
    Tail3(a, m, r);
    HeadTail(a);
    SplitStep(s);
    hide *;
  }

  lemma SplitStep(s: string)
    requires s != "" && PreMatch(s) == 0
    ensures SplitPre(s) == SplitPre(s[1..]).(text := [s[0]] + SplitPre(s[1..]).text)
  {
    hide PreMatch;
  }

  lemma NoOpenAcross(a: string, m: string, r: string)
    requires a != "" && !AtPreOpen(a) && m != "" && m[0] == '<'
    ensures !AtPreOpen(a + m + r)
  {
    var s := a + m + r;
    assert s == a + (m + r);
    if At(s, PRE) {
      assert IsTag(PRE) by { Tags(); }
      TagBeforeAngle(a, m + r, PRE);
    }
  }

  /** Cutting again what was put together from a well-cut text finds the same pieces. */
  lemma {:induction false} CutAgain(p: Pieces)
    requires WellCut(p)
    ensures SplitPre(Flat(p)) == p
  {
    match p
    case Last(text) => PlainSplit(text);
    case More(text, block, rest) =>
      CutAgain(rest);
      BlockSplit(text, block, Flat(rest));
  }

  // ---------------------------------------------------------------- polishing keeps the cut

  lemma PreOpenBack(z: string, y: string, b: Before)
    requires Thinned(z, y, b) && AtPreOpen(y) && z != "" && !IsSpace(z[0])
    ensures AtPreOpen(z) && Thinned(z[|PRE|..], y[|PRE|..], Solid)
  {
    assert IsTag(PRE) by { Tags(); }
    TagBack(z, y, b, PRE);
    assert z[|PRE|..] != "" && y[|PRE|..][0] == y[|PRE|];
  }

  lemma MatchBack(z: string, y: string, b: Before)
    requires Thinned(z, y, b) && PreMatch(y) > 0 && z != "" && !IsSpace(z[0])
    ensures PreMatch(z) > 0
  {
    PreOpenBack(z, y, b);
    var z', y' := z[|PRE|..], y[|PRE|..];
    assert y'[1..] == y[|PRE| + 1..] && z'[1..] == z[|PRE| + 1..];
    assert IsTag(UNPRE) by { Tags(); }
    HasBack(z', y', Solid, UNPRE);
    assert z'[0] == z[|PRE|];
  }

  lemma {:induction false} HasBlockBack(z: string, y: string, b: Before)
    requires Thinned(z, y, b) && HasBlock(y)
    ensures HasBlock(z)
    decreases |z|
  {
    if IsSpace(z[0]) && !b.Blank? && Thinned(z[1..], y, Gap) {
      HasBlockBack(z[1..], y, Gap);
    } else if PreMatch(y) > 0 {
      assert !IsSpace(y[0]);
      MatchBack(z, y, b);
    } else {
      HasBlockBack(z[1..], y[1..], AfterChar(z[0]));
    }
  }

  lemma {:induction false} HasPreOpenBack(z: string, y: string, b: Before)
    requires Thinned(z, y, b) && HasPreOpen(y)
    ensures HasPreOpen(z)
    decreases |z|
  {
    if IsSpace(z[0]) && !b.Blank? && Thinned(z[1..], y, Gap) {
      HasPreOpenBack(z[1..], y, Gap);
    } else if AtPreOpen(y) {
      assert !IsSpace(y[0]);
      PreOpenBack(z, y, b);
    } else {
      HasPreOpenBack(z[1..], y[1..], AfterChar(z[0]));
    }
  }

  lemma {:induction false} PolishedWellCut(p: Pieces)
    requires WellCut(p)
    ensures WellCut(Polished(p))
    ensures Thinned(Flat(p), Flat(Polished(p)), Solid)
    ensures Polished(Polished(p)) == Polished(p)
  {
    PolishPartThins(p.text);
    PolishPartStable(p.text);
    StableFixed(PolishPart(p.text));
    match p
    case Last(text) =>
      if HasBlock(PolishPart(text)) {
        HasBlockBack(text, PolishPart(text), Solid);
      }
    case More(text, block, rest) =>
      if HasPreOpen(PolishPart(text)) {
        HasPreOpenBack(text, PolishPart(text), Solid);
      }
      PolishedWellCut(rest);
      BlockShape(block);
      BlockThins(text, block, Flat(rest), Flat(Polished(rest)));
  }

  // ---------------------------------------------------------------- trimming the front

  function FrontTrimmed(p: Pieces): Pieces {
    p.(text := TrimStart(p.text))
  }

  lemma {:induction false} TrimStartConcat(a: string, r: string)
    requires r != "" && !IsSpace(r[0])
    ensures TrimStart(a + r) == TrimStart(a) + r
  {
    if a != "" && IsSpace(a[0]) {
      assert (a + r)[1..] == a[1..] + r;
      TrimStartConcat(a[1..], r);
    } else if a == "" {
      assert a + r == r;
    }
  }

  lemma {:induction false} TrimStartCut(a: string)
    ensures !HasPreOpen(a) ==> !HasPreOpen(TrimStart(a))
    ensures !HasBlock(a) ==> !HasBlock(TrimStart(a))
  {
    if a != "" && IsSpace(a[0]) {
      TrimStartCut(a[1..]);
    }
  }

  lemma FrontTrimmedFlat(p: Pieces)
    requires p.More? ==> p.block != "" && p.block[0] == '<'
    ensures Flat(FrontTrimmed(p)) == TrimStart(Flat(p))
  {
    match p
    case Last(text) =>
    case More(text, block, rest) =>
      var r := block + Flat(rest);
      assert Flat(p) == text + r && Flat(FrontTrimmed(p)) == TrimStart(text) + r;
      TrimStartConcat(text, r);
  }

  lemma FrontTrimmedWellCut(p: Pieces)
    requires WellCut(p) && Polished(p) == p
    ensures WellCut(FrontTrimmed(p)) && Polished(FrontTrimmed(p)) == FrontTrimmed(p)
    ensures Flat(FrontTrimmed(p)) == TrimStart(Flat(p))
  {
    assert p.More? ==> p.block != "" && p.block[0] == '<' by {
      if p.More? { BlockShape(p.block); }
    }
    FrontTrimmedFlat(p);
    TrimStartCut(p.text);
    assert PolishPart(TrimStart(p.text)) == TrimStart(p.text) by {
      PolishPartStable(p.text);
      StableTrimStart(p.text);
      StableFixed(TrimStart(p.text));
    }
    hide PreMatch, HasPreOpen, HasBlock, TrimStart, PolishPart;
  }

  lemma {:induction false} TightTrimStart(g: string)
    requires Tight(g, Outside)
    ensures Tight(TrimStart(g), Outside)
  {
    if g != "" && IsSpace(g[0]) {
      assert !At(g, OPEN);
      TightTrimStart(g[1..]);
    }
  }

  /** The pieces of a polished message. */
  lemma PolishedPieces(text: string) returns (p: Pieces)
    ensures WellCut(p) && Polished(p) == p && FrontTrimmed(p) == p && Flat(p) == PolishMessageText(text)
    ensures Tight(Flat(p), Outside)
  {
    var q := TrimQuotes(text);
    var cut := SplitPre(q);
    SplitWellCut(q);
    PolishedWellCut(cut);
    FrontTrimmedWellCut(Polished(cut));
    p := FrontTrimmed(Polished(cut));
    assert Tight(Flat(p), Outside) by {
      TrimQuotesTight(text);
      TightThinned(q, Flat(Polished(cut)), Solid, Outside);
      TightTrimStart(Flat(Polished(cut)));
    }
    TrimStartTwice(Polished(cut).text);
  }

  lemma {:induction false} TrimStartTwice(s: string)
    ensures TrimStart(TrimStart(s)) == TrimStart(s)
  {
    if s != "" && IsSpace(s[0]) {
      TrimStartTwice(s[1..]);
    }
  }

  /** `polishMessageText` is idempotent, for every text: nested, unclosed and overlapping tags included. */
  lemma PolishIdempotent(text: string)
    ensures PolishMessageText(PolishMessageText(text)) == PolishMessageText(text)
  {
    var p := PolishedPieces(text);
    var y := Flat(p);
    TightFixed(y);
    CutAgain(p);
    FrontTrimmedWellCut(p);
  }
}
