// HTML escaping of user input, src/helpers/formatting.ts:1-8.
module Escaping {

  /** `text.replace(/c/g, r)` for a single character `c`. */
  function ReplaceAll(text: string, c: char, r: string): string {
    if text == "" then "" else (if text[0] == c then r else [text[0]]) + ReplaceAll(text[1..], c, r)
  }

  function EscapeUserInput(text: string): string {
    var a := ReplaceAll(text, '&', "&amp;");
    var b := ReplaceAll(a, '<', "&lt;");
    var c := ReplaceAll(b, '>', "&gt;");
    var d := ReplaceAll(c, '"', "&quot;");
    ReplaceAll(d, '\'', "&#039;")
  }

  /** What stands for a single character. */
  function Entity(c: char): string {
    if c == '&' then "&amp;"
    else if c == '<' then "&lt;"
    else if c == '>' then "&gt;"
    else if c == '"' then "&quot;"
    else if c == '\'' then "&#039;"
    else [c]
  }

  function SinglePass(text: string): string {
    if text == "" then "" else Entity(text[0]) + SinglePass(text[1..])
  }

  /** Reads the five entities back, from left to right. */
  function Unescape(text: string): string {
    if text == "" then ""
    else if "&amp;" <= text then "&" + Unescape(text[5..])
    else if "&lt;" <= text then "<" + Unescape(text[4..])
    else if "&gt;" <= text then ">" + Unescape(text[4..])
    else if "&quot;" <= text then "\"" + Unescape(text[6..])
    else if "&#039;" <= text then "'" + Unescape(text[6..])
    else [text[0]] + Unescape(text[1..])
  }

  lemma {:induction false} ReplaceSplits(a: string, b: string, c: char, r: string)
    ensures ReplaceAll(a + b, c, r) == ReplaceAll(a, c, r) + ReplaceAll(b, c, r)
  {
    if a == "" {
      assert a + b == b;
    } else {
      assert (a + b)[1..] == a[1..] + b;
      ReplaceSplits(a[1..], b, c, r);
    }
  }

  lemma {:induction false} ReplaceNothing(text: string, c: char, r: string)
    requires c !in text
    ensures ReplaceAll(text, c, r) == text
  {
    if text != "" {
      ReplaceNothing(text[1..], c, r);
    }
  }

  lemma EscapeSplits(a: string, b: string)
    ensures EscapeUserInput(a + b) == EscapeUserInput(a) + EscapeUserInput(b)
  {
    hide ReplaceAll;
    ReplaceSplits(a, b, '&', "&amp;");
    var a1, b1 := ReplaceAll(a, '&', "&amp;"), ReplaceAll(b, '&', "&amp;");
    ReplaceSplits(a1, b1, '<', "&lt;");
    var a2, b2 := ReplaceAll(a1, '<', "&lt;"), ReplaceAll(b1, '<', "&lt;");
    ReplaceSplits(a2, b2, '>', "&gt;");
    var a3, b3 := ReplaceAll(a2, '>', "&gt;"), ReplaceAll(b2, '>', "&gt;");
    ReplaceSplits(a3, b3, '"', "&quot;");
    ReplaceSplits(ReplaceAll(a3, '"', "&quot;"), ReplaceAll(b3, '"', "&quot;"), '\'', "&#039;");
  }

  lemma ReplaceOne(c: char, target: char, r: string)
    ensures ReplaceAll([c], target, r) == if c == target then r else [c]
  {
    assert [c][1..] == "";
  }

  /** No later replacement touches what an earlier one put in. */
  lemma EscapeOne(c: char)
    ensures EscapeUserInput([c]) == Entity(c)
  {
    hide ReplaceAll;
    ReplaceOne(c, '&', "&amp;");
    var a := ReplaceAll([c], '&', "&amp;");
    if c == '<' { ReplaceOne(c, '<', "&lt;"); } else { ReplaceNothing(a, '<', "&lt;"); }
    var b := ReplaceAll(a, '<', "&lt;");
    if c == '>' { ReplaceOne(c, '>', "&gt;"); } else { ReplaceNothing(b, '>', "&gt;"); }
    var d := ReplaceAll(b, '>', "&gt;");
    if c == '"' { ReplaceOne(c, '"', "&quot;"); } else { ReplaceNothing(d, '"', "&quot;"); }
    var e := ReplaceAll(d, '"', "&quot;");
    if c == '\'' { ReplaceOne(c, '\'', "&#039;"); } else { ReplaceNothing(e, '\'', "&#039;"); }
  }

  /** Five replacements of the whole text are one pass over its characters. */
  lemma {:induction false} FivePassesAreOne(text: string)
    ensures EscapeUserInput(text) == SinglePass(text)
  {
    if text != "" {
      FivePassesAreOne(text[1..]);
      assert text == [text[0]] + text[1..];
      EscapeSplits([text[0]], text[1..]);
      EscapeOne(text[0]);
    }
  }

  lemma {:induction false} PassHasNoMarkup(text: string)
    ensures forall c :: c in SinglePass(text) ==> c != '<' && c != '>' && c != '"' && c != '\''
  {
    if text != "" {
      PassHasNoMarkup(text[1..]);
    }
  }

  /** Nothing that could open a tag or end an attribute is left. */
  lemma NoMarkupIsLeft(text: string)
    ensures forall c :: c in EscapeUserInput(text) ==> c != '<' && c != '>' && c != '"' && c != '\''
  {
    FivePassesAreOne(text);
    PassHasNoMarkup(text);
  }

  lemma ReadsEntity(c: char, rest: string)
    ensures Unescape(Entity(c) + rest) == [c] + Unescape(rest)
  {
    var text := Entity(c) + rest;
    assert text[|Entity(c)|..] == rest;
    assert text[0] == Entity(c)[0];
    if c == '&' {
      assert "&amp;" <= text;
    } else if c == '<' {
      assert text[1] == 'l' && "&lt;" <= text;
    } else if c == '>' {
      assert text[1] == 'g' && "&gt;" <= text;
    } else if c == '"' {
      assert text[1] == 'q' && "&quot;" <= text;
    } else if c == '\'' {
      assert text[1] == '#' && "&#039;" <= text;
    }
  }

  lemma {:induction false} PassReadsBack(text: string)
    ensures Unescape(SinglePass(text)) == text
  {
    if text != "" {
      PassReadsBack(text[1..]);
      ReadsEntity(text[0], SinglePass(text[1..]));
    }
  }

  /** The text can be read back, so two texts never escape alike. */
  lemma EscapeReadsBack(text: string, other: string)
    ensures Unescape(EscapeUserInput(text)) == text
    ensures EscapeUserInput(text) == EscapeUserInput(other) ==> text == other
  {
    FivePassesAreOne(text);
    FivePassesAreOne(other);
    PassReadsBack(text);
    PassReadsBack(other);
  }
}
