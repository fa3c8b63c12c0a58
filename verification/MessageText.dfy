// The text passes of src/ui/design-system.ts that every outgoing message goes through.
//
// A regular expression `r` with the global flag is modelled the way a matching engine runs it: try `r` at the
// current position, replace and continue behind the match, or copy one character and move on.
module MessageText {

  // ---------------------------------------------------------------- characters

  /** The characters of `\s`, which are also the ones `trim` removes. */
  predicate IsSpace(c: char) {
    || '\t' <= c <= '\r'
    || c == ' ' || c == '\U{00A0}' || c == '\U{1680}'
    || '\U{2000}' <= c <= '\U{200A}'
    || c == '\U{2028}' || c == '\U{2029}' || c == '\U{202F}' || c == '\U{205F}'
    || c == '\U{3000}' || c == '\U{FEFF}'
  }

  /** `[ \t]` */
  predicate IsBlank(c: char) {
    c == ' ' || c == '\t'
  }

  /** A line terminator: `$` with the multiline flag matches in front of one of these, and at the end. */
  predicate IsEol(c: char) {
    c == '\n' || c == '\r' || c == '\U{2028}' || c == '\U{2029}'
  }

  function Lower(c: char): char {
    if 'A' <= c <= 'Z' then c - 'A' + 'a' else c
  }

  /** `s` starts with the lower-case word `w`, upper and lower case of ASCII letters being the same. */
  predicate At(s: string, w: string) {
    |w| <= |s| && forall i | 0 <= i < |w| :: Lower(s[i]) == w[i]
  }

  const OPEN: string := "<blockquote>"
  const CLOSE: string := "</blockquote>"
  const PRE: string := "<pre"
  const UNPRE: string := "</pre>"

  // ---------------------------------------------------------------- plain passes

  predicate AllSpace(s: string) {
    forall i | 0 <= i < |s| :: IsSpace(s[i])
  }

  function TrimStart(s: string): (r: string)
    ensures |r| <= |s|
  {
    if s != "" && IsSpace(s[0]) then TrimStart(s[1..]) else s
  }

  function TrimEnd(s: string): string {
    if AllSpace(s) then "" else [s[0]] + TrimEnd(s[1..])
  }

  function Trim(s: string): string {
    TrimStart(TrimEnd(s))
  }

  /** Only blanks separate the front of `s` from the end of its line. */
  predicate BlankToEol(s: string) {
    s == "" || IsEol(s[0]) || (IsBlank(s[0]) && BlankToEol(s[1..]))
  }

  /** `replace(/[ \t]+$/gm, "")`: a blank goes when only blanks follow it on its line. */
  function StripLineEnds(s: string): string {
    if s == "" then ""
    else if IsBlank(s[0]) && BlankToEol(s[1..]) then StripLineEnds(s[1..])
    else [s[0]] + StripLineEnds(s[1..])
  }

  predicate StartsTripleNewline(s: string) {
    |s| >= 3 && s[0] == '\n' && s[1] == '\n' && s[2] == '\n'
  }

  /** `replace(/\n{3,}/g, "\n\n")`: of a run of line feeds only the last two stay. */
  function CollapseNewlines(s: string): string {
    if s == "" then ""
    else if StartsTripleNewline(s) then CollapseNewlines(s[1..])
    else [s[0]] + CollapseNewlines(s[1..])
  }

  /** What `polishMessageText` does to a stretch of text outside `<pre>` blocks. */
  function PolishPart(s: string): string {
    TrimEnd(CollapseNewlines(StripLineEnds(s)))
  }

  // ---------------------------------------------------------------- blockquotes

  /** Position of the first `w` in `s`, or `|s|` when there is none. */
  function Find(s: string, w: string): (i: nat)
    ensures i <= |s|
    ensures Has(s, w) ==> i + |w| <= |s| && At(s[i..], w)
  {
    if s == "" || At(s, w) then 0
    else
      var i := Find(s[1..], w);
      assert s[1..][i..] == s[1 + i..];
      1 + i
  }

  predicate Has(s: string, w: string) {
    s != "" && (At(s, w) || Has(s[1..], w))
  }

  function TrimQuote(content: string): string {
    Trim(StripLineEnds(content))
  }

  /** `trimBlockquoteContent`: `(<blockquote>)([\s\S]*?)(<\/blockquote>)` with flags `gi`. */
  function TrimQuotes(s: string): string
    decreases |s|
  {
    if s == "" then ""
    else if At(s, OPEN) && Has(s[|OPEN|..], CLOSE) then
      var rest := s[|OPEN|..];
      var n := Find(rest, CLOSE);
      s[..|OPEN|] + TrimQuote(rest[..n]) + rest[n..n + |CLOSE|] + TrimQuotes(rest[n + |CLOSE|..])
    else
      [s[0]] + TrimQuotes(s[1..])
  }

  // ---------------------------------------------------------------- pre blocks

  /** `<pre[\s>]` matches at the front of `s`. */
  predicate AtPreOpen(s: string) {
    At(s, PRE) && |s| > |PRE| && (IsSpace(s[|PRE|]) || s[|PRE|] == '>')
  }

  /** Length of the match of `<pre[\s>][\s\S]*?<\/pre>` at the front of `s`; 0 when it does not match there. */
  function PreMatch(s: string): (n: nat)
    ensures n <= |s|
  {
    if AtPreOpen(s) && Has(s[|PRE| + 1..], UNPRE) then |PRE| + 1 + Find(s[|PRE| + 1..], UNPRE) + |UNPRE| else 0
  }

  /** What `split(PRE_BLOCK_RE)` returns: text, block, text, ..., block, text. */
  datatype Pieces = Last(text: string) | More(text: string, block: string, rest: Pieces)

  /** `split(PRE_BLOCK_RE)` */
  function SplitPre(s: string): Pieces
    decreases |s|
  {
    if s == "" then Last("")
    else
      var n := PreMatch(s);
      if n > 0 then More("", s[..n], SplitPre(s[n..]))
      else
        var p := SplitPre(s[1..]);
        p.(text := [s[0]] + p.text)
  }

  /** `join("")` */
  function Flat(p: Pieces): string {
    match p
    case Last(text) => text
    case More(text, block, rest) => text + block + Flat(rest)
  }

  /** `parts.map((part, index) => index % 2 === 1 ? part : ...)`: blocks stay, texts are polished. */
  function Polished(p: Pieces): Pieces {
    match p
    case Last(text) => Last(PolishPart(text))
    case More(text, block, rest) => More(PolishPart(text), block, Polished(rest))
  }

  /** `polishMessageText` */
  function PolishMessageText(text: string): string {
    if text == "" then text
    else TrimStart(Flat(Polished(SplitPre(TrimQuotes(text)))))
  }

  // ---------------------------------------------------------------- screens

  function Rule(c: char, n: nat): (r: string)
    ensures |r| == n && forall i | 0 <= i < n :: r[i] == c
  {
    seq(n, i => c)
  }

  /** `SCREEN_DIVIDER`, fifteen times U+2500. */
  const DIVIDER: string := Rule('─', 15)
  /** The heavier divider that `PREMIUM_STRUCTURE_RE` accepts as well, fourteen times U+2501. */
  const HEAVY_DIVIDER: string := Rule('━', 14)

  /** `joinScreenSections`; a missing section is the empty string. */
  function JoinScreenSections(sections: seq<string>): string {
    PolishMessageText(JoinNonEmpty(sections))
  }

  /** `sections.map(trim).filter(nonEmpty).join("\n\n")` */
  function JoinNonEmpty(sections: seq<string>): string {
    if sections == [] then ""
    else
      var head := Trim(sections[0]);
      var tail := JoinNonEmpty(sections[1..]);
      if head == "" then tail
      else if tail == "" then head
      else head + "\n\n" + tail
  }

  predicate HasPremiumStructure(s: string) {
    Has(s, DIVIDER) || Has(s, HEAVY_DIVIDER)
  }

  /** `premiumScreen` */
  function PremiumScreen(content: string): string {
    var trimmed := Trim(content);
    if trimmed == "" then ""
    else if HasPremiumStructure(trimmed) then PolishMessageText(trimmed)
    else PolishMessageText(trimmed + "\n\n" + DIVIDER)
  }

  // ---------------------------------------------------------------- welcome layout

  function AfterNewlines(s: string): (r: string)
    ensures |r| <= |s|
  {
    if s != "" && s[0] == '\n' then AfterNewlines(s[1..]) else s
  }

  // A divider and the line feeds around it become the divider between two line feeds on either side.
  function SpaceDividers(s: string): string
    decreases |s|
  {
    if s == "" then ""
    else if At(AfterNewlines(s), DIVIDER) then
      "\n\n" + DIVIDER + "\n\n" + SpaceDividers(AfterNewlines(AfterNewlines(s)[|DIVIDER|..]))
    else [s[0]] + SpaceDividers(s[1..])
  }

  /** `replace(/<blockquote>\s+/g, "<blockquote>")`; this pattern is case sensitive. */
  function TightenOpen(s: string): string
    decreases |s|
  {
    if s == "" then ""
    else if OPEN <= s then OPEN + TightenOpen(TrimStart(s[|OPEN|..]))
    else [s[0]] + TightenOpen(s[1..])
  }

  /** `replace(/\s+<\/blockquote>/g, "</blockquote>")`; this pattern is case sensitive. */
  function TightenClose(s: string): string {
    if s == "" then ""
    else if IsSpace(s[0]) && CLOSE <= TrimStart(s) then TightenClose(s[1..])
    else [s[0]] + TightenClose(s[1..])
  }

  /** `replace(/\n{4,}/g, "\n\n\n")` */
  function CollapseToThree(s: string): string {
    if s == "" then ""
    else if |s| >= 4 && s[0] == '\n' && StartsTripleNewline(s[1..]) then CollapseToThree(s[1..])
    else [s[0]] + CollapseToThree(s[1..])
  }

  /** `polishWelcomeLayout` */
  function PolishWelcomeLayout(text: string): string {
    TrimEnd(CollapseToThree(TightenClose(TightenOpen(SpaceDividers(StripLineEnds(TrimQuotes(text)))))))
  }

  predicate Contains(s: string, w: string) {
    w <= s || (s != "" && Contains(s[1..], w))
  }

  /** What `enhanceTelegramTextPayload` makes of the text of a message. */
  function EnhanceText(text: string): string {
    if Contains(text, OPEN) then PolishWelcomeLayout(text) else PolishMessageText(text)
  }
}
