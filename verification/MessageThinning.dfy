// Why polishing a message twice is the same as polishing it once (src/ui/design-system.ts).
//
// The passes only ever delete white space, and they delete it in a disciplined way. `Thinned` captures that way:
// no gap opens behind a blank, and the character behind a gap is a '<' or white space. Deletions of that kind
// neither build nor break a tag, so the two scans for blockquotes and for `<pre>` blocks find the same matches again.
module MessageThinning {
  import opened MessageText

  // ---------------------------------------------------------------- sequences

  lemma Tail2(a: string, b: string)
    requires a != ""
    ensures a + b != "" && (a + b)[0] == a[0] && (a + b)[1..] == a[1..] + b
  {
  }

  lemma Tail3(a: string, b: string, c: string)
    requires a != ""
    ensures a + b + c != "" && (a + b + c)[0] == a[0] && (a + b + c)[1..] == a[1..] + b + c
  {
    Tail2(a + b, c);
    Tail2(a, b);
  }

  lemma ShiftSlices(s: string, n: nat, j: nat)
    requires 0 < n && n + j <= |s|
    ensures s[..n] != "" && s[..n][0] == s[0] && s[..n][1..] == s[1..][..n - 1]
    ensures s[1..][n - 1 + j..] == s[n + j..]
  {
  }

  lemma HeadTail(a: string)
    requires a != ""
    ensures a == [a[0]] + a[1..]
  {
  }

  // ---------------------------------------------------------------- thinning

  datatype Before = Solid | Blank | Gap

  function AfterChar(c: char): Before {
    if IsBlank(c) then Blank else Solid
  }

  /** `y` is `z` with some white space deleted; `b` says what stands in front of `z`. */
  ghost predicate Thinned(z: string, y: string, b: Before)
    decreases |z|
  {
    if z == "" then y == ""
    else
      || (y != "" && y[0] == z[0] && (b.Gap? ==> z[0] == '<' || IsSpace(z[0])) && Thinned(z[1..], y[1..], AfterChar(z[0])))
      || (IsSpace(z[0]) && !b.Blank? && Thinned(z[1..], y, Gap))
  }

  /** The characters of `s` that are not white space, in order. */
  function Ink(s: string): string {
    if s == "" then "" else if IsSpace(s[0]) then Ink(s[1..]) else [s[0]] + Ink(s[1..])
  }

  lemma {:induction false} InkConcat(a: string, b: string)
    ensures Ink(a + b) == Ink(a) + Ink(b)
  {
    if a == "" {
      assert a + b == b;
    } else {
      assert (a + b)[1..] == a[1..] + b;
      InkConcat(a[1..], b);
    }
  }

  lemma {:induction false} ThinnedInk(z: string, y: string, b: Before)
    requires Thinned(z, y, b)
    ensures Ink(y) == Ink(z)
    decreases |z|
  {
    if z != "" {
      if IsSpace(z[0]) && !b.Blank? && Thinned(z[1..], y, Gap) {
        ThinnedInk(z[1..], y, Gap);
      } else {
        ThinnedInk(z[1..], y[1..], AfterChar(z[0]));
      }
    }
  }

  /** Behind a gap comes a '<' or white space. */
  lemma {:induction false} BehindGap(z: string, y: string)
    requires Thinned(z, y, Gap) && y != ""
    ensures y[0] == '<' || IsSpace(y[0])
    decreases |z|
  {
    if !(y[0] == z[0] && (z[0] == '<' || IsSpace(z[0]))) {
      BehindGap(z[1..], y);
    }
  }

  lemma {:induction false} ThinnedTrans(z: string, y: string, x: string, b: Before, c: Before, d: Before)
    requires Thinned(z, y, b) && Thinned(y, x, c)
    requires d.Blank? ==> b.Blank? && c.Blank?
    requires d.Gap? ==> b.Gap? || c.Gap?
    ensures Thinned(z, x, d)
    decreases |z|
  {
    if z != "" {
      if IsSpace(z[0]) && !b.Blank? && Thinned(z[1..], y, Gap) {
        ThinnedTrans(z[1..], y, x, Gap, c, Gap);
      } else if IsSpace(y[0]) && !c.Blank? && Thinned(y[1..], x, Gap) {
        ThinnedTrans(z[1..], y[1..], x, AfterChar(z[0]), Gap, Gap);
      } else {
        ThinnedTrans(z[1..], y[1..], x[1..], AfterChar(z[0]), AfterChar(z[0]), AfterChar(z[0]));
      }
    }
  }

  /** Thinning may be done piece by piece when the second piece starts with a '<'. */
  lemma {:induction false} ThinnedConcat(a: string, a': string, r: string, r': string, b: Before)
    requires Thinned(a, a', b) && Thinned(r, r', Solid)
    requires r != "" && r[0] == '<'
    ensures Thinned(a + r, a' + r', b)
    decreases |a|
  {
    if a == "" {
      assert a + r == r && a' + r' == r';
    } else {
      assert (a + r)[1..] == a[1..] + r;
      if IsSpace(a[0]) && !b.Blank? && Thinned(a[1..], a', Gap) {
        ThinnedConcat(a[1..], a', r, r', Gap);
      } else {
        ThinnedConcat(a[1..], a'[1..], r, r', AfterChar(a[0]));
        assert (a' + r')[1..] == a'[1..] + r';
      }
    }
  }

  /** A verbatim piece that ends in '>' may stand in front of a thinned one. */
  lemma {:induction false} ThinnedVerbatim(m: string, r: string, r': string, b: Before)
    requires m != "" && m[|m| - 1] == '>' && (b.Gap? ==> m[0] == '<')
    requires Thinned(r, r', Solid)
    ensures Thinned(m + r, m + r', b)
    decreases |m|
  {
    assert (m + r)[1..] == m[1..] + r && (m + r')[1..] == m[1..] + r';
    if |m| == 1 {
      assert m[1..] + r == r && m[1..] + r' == r';
    } else {
      assert m[1..][|m| - 2] == '>';
      ThinnedVerbatim(m[1..], r, r', AfterChar(m[0]));
    }
  }

  // ---------------------------------------------------------------- tags survive thinning

  /** Neither white space nor a '<' in the word. */
  predicate Inner(w: string) {
    forall i | 0 <= i < |w| :: !IsSpace(w[i]) && w[i] != '<'
  }

  predicate IsTag(t: string) {
    t != "" && t[0] == '<' && forall i | 1 <= i < |t| :: !IsSpace(t[i]) && t[i] != '<'
  }

  lemma Tags()
    ensures IsTag(OPEN) && IsTag(CLOSE) && IsTag(PRE) && IsTag(UNPRE)
  {
  }

  lemma AtHead(s: string, w: string)
    requires w != ""
    ensures At(s, w) <==> s != "" && Lower(s[0]) == w[0] && At(s[1..], w[1..])
  {
    if s != "" && Lower(s[0]) == w[0] && At(s[1..], w[1..]) {
      forall i | 0 <= i < |w| ensures Lower(s[i]) == w[i] {
        if i > 0 {
          assert s[1..][i - 1] == s[i] && w[1..][i - 1] == w[i];
        }
      }
    }
  }

  lemma {:induction false} WordForth(z: string, y: string, b: Before, w: string)
    requires Thinned(z, y, b) && !b.Gap? && Inner(w) && At(z, w) && w != ""
    ensures At(y, w) && Thinned(z[|w|..], y[|w|..], Solid)
    decreases |w|
  {
    AtHead(z, w);
    AtHead(y, w);
    assert !IsSpace(z[0]);
    if |w| > 1 {
      WordForth(z[1..], y[1..], Solid, w[1..]);
      assert z[1..][|w| - 1..] == z[|w|..] && y[1..][|w| - 1..] == y[|w|..];
    } else {
      assert w[1..] == "";
    }
  }

  lemma {:induction false} WordBack(z: string, y: string, b: Before, w: string)
    requires Thinned(z, y, b) && !b.Gap? && Inner(w) && At(y, w) && w != ""
    ensures At(z, w) && Thinned(z[|w|..], y[|w|..], Solid)
    decreases |w|
  {
    AtHead(z, w);
    AtHead(y, w);
    assert !IsSpace(y[0]) && y[0] != '<';
    if IsSpace(z[0]) && Thinned(z[1..], y, Gap) {
      BehindGap(z[1..], y);
    }
    if |w| > 1 {
      WordBack(z[1..], y[1..], Solid, w[1..]);
      assert z[1..][|w| - 1..] == z[|w|..] && y[1..][|w| - 1..] == y[|w|..];
    } else {
      assert w[1..] == "";
    }
  }

  lemma TagForth(z: string, y: string, b: Before, t: string)
    requires Thinned(z, y, b) && IsTag(t) && At(z, t)
    ensures At(y, t) && Thinned(z[|t|..], y[|t|..], Solid)
  {
    AtHead(z, t);
    AtHead(y, t);
    if |t| > 1 {
      WordForth(z[1..], y[1..], Solid, t[1..]);
      assert z[1..][|t| - 1..] == z[|t|..] && y[1..][|t| - 1..] == y[|t|..];
    }
  }

  lemma TagBack(z: string, y: string, b: Before, t: string)
    requires Thinned(z, y, b) && IsTag(t) && At(y, t) && z != "" && !IsSpace(z[0])
    ensures At(z, t) && Thinned(z[|t|..], y[|t|..], Solid)
  {
    AtHead(z, t);
    AtHead(y, t);
    if |t| > 1 {
      WordBack(z[1..], y[1..], Solid, t[1..]);
      assert z[1..][|t| - 1..] == z[|t|..] && y[1..][|t| - 1..] == y[|t|..];
    }
  }

  lemma {:induction false} HasForth(z: string, y: string, b: Before, t: string)
    requires Thinned(z, y, b) && IsTag(t) && Has(z, t)
    ensures Has(y, t)
    decreases |z|
  {
    if At(z, t) {
      TagForth(z, y, b, t);
    } else if IsSpace(z[0]) && !b.Blank? && Thinned(z[1..], y, Gap) {
      HasForth(z[1..], y, Gap, t);
    } else {
      HasForth(z[1..], y[1..], AfterChar(z[0]), t);
    }
  }

  lemma {:induction false} HasBack(z: string, y: string, b: Before, t: string)
    requires Thinned(z, y, b) && IsTag(t) && Has(y, t)
    ensures Has(z, t)
    decreases |z|
  {
    if IsSpace(z[0]) && !b.Blank? && Thinned(z[1..], y, Gap) {
      HasBack(z[1..], y, Gap, t);
    } else if At(y, t) {
      AtHead(y, t);
      TagBack(z, y, b, t);
    } else {
      HasBack(z[1..], y[1..], AfterChar(z[0]), t);
    }
  }

  // ---------------------------------------------------------------- the passes thin

  /** No line ends in a blank. */
  ghost predicate LinesTight(s: string) {
    s == "" || (!(IsBlank(s[0]) && (|s| == 1 || IsEol(s[1]))) && LinesTight(s[1..]))
  }

  /** No three line feeds in a row. */
  ghost predicate NoTriple(s: string) {
    s == "" || (!StartsTripleNewline(s) && NoTriple(s[1..]))
  }

  predicate EndsInInk(s: string) {
    s == "" || !IsSpace(s[|s| - 1])
  }

  lemma {:induction false} StripThins(s: string, b: Before)
    requires b.Blank? ==> !(s != "" && IsBlank(s[0]) && BlankToEol(s[1..]))
    requires b.Gap? ==> BlankToEol(s)
    ensures Thinned(s, StripLineEnds(s), b)
    decreases |s|
  {
    if s != "" {
      if IsBlank(s[0]) && BlankToEol(s[1..]) {
        StripThins(s[1..], Gap);
      } else {
        StripThins(s[1..], AfterChar(s[0]));
        assert StripLineEnds(s)[1..] == StripLineEnds(s[1..]);
      }
    }
  }

  lemma {:induction false} StripTight(s: string)
    ensures LinesTight(StripLineEnds(s))
  {
    if s != "" {
      StripTight(s[1..]);
      if !(IsBlank(s[0]) && BlankToEol(s[1..])) {
        assert StripLineEnds(s)[1..] == StripLineEnds(s[1..]);
      }
    }
  }

  lemma {:induction false} CollapseThins(s: string, b: Before)
    requires LinesTight(s)
    requires b.Blank? ==> s == "" || s[0] != '\n'
    requires b.Gap? ==> s != "" && s[0] == '\n'
    ensures Thinned(s, CollapseNewlines(s), b)
    decreases |s|
  {
    if s != "" {
      if StartsTripleNewline(s) {
        CollapseThins(s[1..], Gap);
      } else {
        CollapseThins(s[1..], AfterChar(s[0]));
        assert CollapseNewlines(s)[1..] == CollapseNewlines(s[1..]);
      }
    }
  }

  lemma {:induction false} TrimEndThins(s: string, b: Before)
    requires b.Blank? ==> s == "" || !AllSpace(s)
    requires b.Gap? ==> AllSpace(s)
    ensures Thinned(s, TrimEnd(s), b)
    decreases |s|
  {
    if s != "" {
      if AllSpace(s) {
        assert AllSpace(s[1..]);
        TrimEndThins(s[1..], Gap);
      } else {
        TrimEndThins(s[1..], AfterChar(s[0]));
        assert TrimEnd(s)[1..] == TrimEnd(s[1..]);
      }
    }
  }

  lemma PolishPartThins(s: string)
    ensures Thinned(s, PolishPart(s), Solid)
  {
    var t := StripLineEnds(s);
    var u := CollapseNewlines(t);
    StripThins(s, Solid);
    StripTight(s);
    CollapseThins(t, Solid);
    TrimEndThins(u, Solid);
    ThinnedTrans(s, t, u, Solid, Solid, Solid);
    ThinnedTrans(s, u, PolishPart(s), Solid, Solid, Solid);
  }

  /** A polished text, a block as it is, and thinned text behind it. */
  lemma BlockThins(a: string, m: string, r: string, r': string)
    requires m != "" && m[0] == '<' && m[|m| - 1] == '>'
    requires Thinned(r, r', Solid)
    ensures Thinned(a + m + r, PolishPart(a) + m + r', Solid)
  {
    PolishPartThins(a);
    ThinnedVerbatim(m, r, r', Solid);
    ThinnedConcat(a, PolishPart(a), m + r, m + r', Solid);
    assert a + m + r == a + (m + r) && PolishPart(a) + m + r' == PolishPart(a) + (m + r');
  }
}
