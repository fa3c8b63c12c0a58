// The lines of the welcome text above its divider, the loop of `normalizeWelcomeHead` in src/ui/design-system.ts:28-45.
// Lines are already split and trimmed.
module WelcomeHead {

  /** Some line from `i` on has text. */
  predicate TextFrom(lines: seq<string>, i: nat) {
    exists j :: i <= j < |lines| && lines[j] != ""
  }

  /** A line stays when it has text, or is the first empty one behind a line with text and text follows. */
  predicate Stays(lines: seq<string>, i: nat)
    requires i < |lines|
  {
    lines[i] != "" || (i > 0 && lines[i - 1] != "" && TextFrom(lines, i))
  }

  /** Of the first `n` lines, those that stay. */
  function KeptLines(lines: seq<string>, n: nat): seq<string>
    requires n <= |lines|
  {
    if n == 0 then [] else KeptLines(lines, n - 1) + if Stays(lines, n - 1) then [lines[n - 1]] else []
  }

  function Head(lines: seq<string>): seq<string> {
    KeptLines(lines, |lines|)
  }

  /** What the loop has put out after `n` lines: an empty line at the end may still have to go. */
  function Put(lines: seq<string>, n: nat): seq<string>
    requires n <= |lines|
  {
    if n == 0 then []
    else Put(lines, n - 1) + if lines[n - 1] != "" || (n > 1 && lines[n - 2] != "") then [lines[n - 1]] else []
  }

  lemma {:induction false} PutShape(lines: seq<string>, n: nat)
    requires n <= |lines|
    ensures var out := Put(lines, n);
            && (n > 0 && lines[n - 1] != "" ==> out != [] && out[|out| - 1] == lines[n - 1])
            && (out == [] <==> forall j :: 0 <= j < n ==> lines[j] == "")
            && (out != [] && out[|out| - 1] == "" ==> |out| > 1 && out[|out| - 2] != "" && lines[n - 1] == "")
            && (out != [] && lines[n - 1] == "" ==> out[|out| - 1] == "")
  {
    if n > 0 {
      PutShape(lines, n - 1);
    }
  }

  lemma {:induction false} PutIsKept(lines: seq<string>, n: nat)
    requires n <= |lines|
    ensures TextFrom(lines, n) ==> Put(lines, n) == KeptLines(lines, n)
    ensures !TextFrom(lines, n) ==>
      KeptLines(lines, n) == if Put(lines, n) != [] && Put(lines, n)[|Put(lines, n)| - 1] == ""
                        then Put(lines, n)[..|Put(lines, n)| - 1] else Put(lines, n)
  {
    if n > 0 {
      PutIsKept(lines, n - 1);
      PutShape(lines, n - 1);
      PutShape(lines, n);
    }
  }

  /** The loop, then the loop that drops empty lines at the end. */
  method NormalizeHead(lines: seq<string>) returns (out: seq<string>)
    ensures out == Head(lines)
  {
    out := [];
    var prevEmpty := false;
    for n := 0 to |lines|
      invariant out == Put(lines, n)
      invariant prevEmpty <==> out != [] && lines[n - 1] == ""
    {
      PutShape(lines, n);
      if |lines[n]| == 0 {
        if !prevEmpty && |out| > 0 {
          out := out + [""];
          prevEmpty := true;
        }
        continue;
      }
      out := out + [lines[n]];
      prevEmpty := false;
    }
    PutShape(lines, |lines|);
    PutIsKept(lines, |lines|);
    ghost var before := out;
    while |out| > 0 && out[|out| - 1] == ""
      invariant out == before || (before != [] && before[|before| - 1] == "" && out == before[..|before| - 1])
      decreases |out|
    {
      out := out[..|out| - 1];
    }
  }

  function Texts(lines: seq<string>): seq<string> {
    if lines == [] then []
    else Texts(lines[..|lines| - 1]) + if lines[|lines| - 1] != "" then [lines[|lines| - 1]] else []
  }

  lemma {:induction false} KeptTexts(lines: seq<string>, n: nat)
    requires n <= |lines|
    ensures Texts(KeptLines(lines, n)) == Texts(lines[..n])
  {
    if n > 0 {
      KeptTexts(lines, n - 1);
      assert lines[..n][..n - 1] == lines[..n - 1];
      var rest := KeptLines(lines, n - 1);
      if Stays(lines, n - 1) {
        assert (rest + [lines[n - 1]])[..|rest|] == rest;
      } else {
        assert KeptLines(lines, n) == rest;
      }
    }
  }

  lemma {:induction false} KeptShape(lines: seq<string>, n: nat)
    requires n <= |lines|
    ensures var out := KeptLines(lines, n);
            && (n > 0 && lines[n - 1] != "" ==> out != [] && out[|out| - 1] == lines[n - 1])
            && (forall p :: 0 <= p < |out| && out[p] == "" ==> p > 0 && out[p - 1] != "")
            && (!TextFrom(lines, n) && out != [] ==> out[|out| - 1] != "")
  {
    if n > 0 {
      KeptShape(lines, n - 1);
    }
  }

  /** No text is lost or moved, no empty line comes first, last or twice, and a second pass changes nothing. */
  lemma HeadIsTidy(lines: seq<string>)
    ensures var out := Head(lines);
            && Texts(out) == Texts(lines)
            && (forall p :: 0 <= p < |out| && out[p] == "" ==> 0 < p < |out| - 1 && out[p - 1] != "" && out[p + 1] != "")
            && Head(out) == out
  {
    var out := Head(lines);
    KeptTexts(lines, |lines|);
    assert lines[..|lines|] == lines;
    KeptShape(lines, |lines|);
    if out != [] {
      forall p | 0 <= p < |out| ensures Stays(out, p) {
        assert out[|out| - 1] != "";
      }
    }
    AllStay(out, |out|);
  }

  lemma {:induction false} AllStay(out: seq<string>, n: nat)
    requires n <= |out| && forall p :: 0 <= p < |out| ==> Stays(out, p)
    ensures KeptLines(out, n) == out[..n]
  {
    if n > 0 {
      AllStay(out, n - 1);
    }
  }

  // ---------------------------------------------------------------- empty lines are kept, too

  lemma {:induction false} KeptGrows(lines: seq<string>, n: nat, m: nat)
    requires n <= m <= |lines|
    ensures KeptLines(lines, n) <= KeptLines(lines, m)
    decreases m - n
  {
    if n < m {
      KeptGrows(lines, n, m - 1);
    }
  }

  /** Of empty lines between two texts the first stays. */
  lemma {:induction false} GapKept(lines: seq<string>, i: nat, n: nat)
    requires i < n <= |lines| && lines[i] != "" && TextFrom(lines, n)
    requires forall k :: i < k < n ==> lines[k] == ""
    ensures KeptLines(lines, n) == KeptLines(lines, i) + [lines[i]] + if n == i + 1 then [] else [""]
    decreases n
  {
    if n > i + 1 {
      GapKept(lines, i, n - 1);
    }
  }

  /**
   * Two texts that follow each other, with nothing or with empty lines in between, stand in the result the same way: next to each
   * other, or with exactly one empty line in between.
   */
  lemma HeadKeepsGaps(lines: seq<string>, i: nat, j: nat)
    requires i < j < |lines| && lines[i] != "" && lines[j] != "" && forall k :: i < k < j ==> lines[k] == ""
    ensures var out, at := Head(lines), |KeptLines(lines, i)|;
            if j == i + 1 then at + 1 < |out| && out[at] == lines[i] && out[at + 1] == lines[j]
            else at + 2 < |out| && out[at] == lines[i] && out[at + 1] == "" && out[at + 2] == lines[j]
  {
    GapKept(lines, i, j);
    KeptGrows(lines, j + 1, |lines|);
    assert KeptLines(lines, j + 1) == KeptLines(lines, j) + [lines[j]];
    assert KeptLines(lines, j + 1) <= Head(lines);
  }
}
