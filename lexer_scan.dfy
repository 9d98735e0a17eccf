/**
 * Explicit matchers for the regular expressions of the Lua lexer, and the
 * digit conversions and UTF-8 encoding its escape sequences need. Each
 * matcher reports where a leftmost-first match ends, as the regular
 * expression engine does.
 */
module LexerScan {
  import opened Outcomes
  import opened LexerAux

  /** `p` is a prefix of `s`. */
  predicate HasPrefix(s: string, p: string) {
    |p| <= |s| && s[..|p|] == p
  }

  /** The class `[\da-fA-F]`. */
  predicate IsHexDigit(c: char) {
    IsDigit(c) || ('a' <= c <= 'f') || ('A' <= c <= 'F')
  }

  /** The class `\s`: tab, line feed, form feed, carriage return and space, but not vertical tab. */
  predicate IsRegexSpace(c: char) {
    c == '\t' || c == '\n' || c == '\U{000C}' || c == '\r' || c == ' '
  }

  predicate IsEquals(c: char) {
    c == '='
  }

  predicate NotNewLine(c: char) {
    !IsNewLine(c)
  }

  /** Length of the longest run of bytes satisfying `p` that starts at `i`. */
  function Span(s: string, i: nat, p: char -> bool): (n: nat)
    requires i <= |s|
    ensures i + n <= |s|
    ensures forall k | i <= k < i + n :: p(s[k])
    ensures i + n == |s| || !p(s[i + n])
    decreases |s| - i
  {
    if i < |s| && p(s[i]) then 1 + Span(s, i + 1, p) else 0
  }

  // ---------------------------------------------------------------------------
  // Long brackets: `\[=*\[`, the matching closing bracket, and its position.
  // ---------------------------------------------------------------------------

  /** `t` is an opening long bracket: `[`, any number of `=`, `[`. */
  predicate IsOpening(t: string) {
    2 <= |t| && t[0] == '[' && t[|t| - 1] == '[' && forall k | 0 < k < |t| - 1 :: t[k] == '='
  }

  /** Length of the opening long bracket that starts at `i`, if one does. */
  function OpeningAt(s: string, i: nat): (r: Option<nat>)
    requires i <= |s|
    ensures r.Some? ==> 2 <= r.value && i + r.value <= |s|
  {
    if i < |s| && s[i] == '[' then
      var k := Span(s, i + 1, IsEquals);
      if i + 1 + k < |s| && s[i + 1 + k] == '[' then Some(k + 2) else None
    else
      None
  }

  /**
   * The leftmost opening long bracket at or after `j`, as its start and its
   * length; the search is not anchored at `j`.
   */
  function FindOpening(s: string, j: nat): (r: Option<(nat, nat)>)
    requires j <= |s|
    ensures r.Some? ==> j <= r.value.0 && 2 <= r.value.1 && r.value.0 + r.value.1 <= |s|
    decreases |s| - j
  {
    var here := OpeningAt(s, j);
    if here.Some? then Some((j, here.value))
    else if j == |s| then None
    else FindOpening(s, j + 1)
  }

  /** `t` with every `a` replaced by `b`. */
  function ReplaceAll(t: string, a: char, b: char): string {
    seq(|t|, k requires 0 <= k < |t| => if t[k] == a then b else t[k])
  }

  /** `t` occurs in `s` at index `k`. */
  predicate OccursAt(s: string, t: string, k: nat) {
    k + |t| <= |s| && s[k..k + |t|] == t
  }

  /** Index of the first occurrence of `t` in `s` at or after `j`. */
  function IndexFrom(s: string, t: string, j: nat): (r: Option<nat>)
    requires j <= |s|
    ensures r.Some? ==> j <= r.value && r.value + |t| <= |s|
    decreases |s| - j
  {
    if OccursAt(s, t, j) then Some(j)
    else if |s| <= j + |t| then None
    else IndexFrom(s, t, j + 1)
  }

  // ---------------------------------------------------------------------------
  // Line breaks: the matches of `\r\n|\n\r|\n|\r`, taken left to right.
  // ---------------------------------------------------------------------------

  /** `s` starts with the two-byte line break `\r\n` or `\n\r`. */
  predicate PairedNewLine(s: string) {
    2 <= |s| && ((s[0] == '\r' && s[1] == '\n') || (s[0] == '\n' && s[1] == '\r'))
  }

  /** `s` with each line-break match replaced by one line feed. */
  function NormalizeNewLines(s: string): string
    decreases |s|
  {
    if s == [] then []
    else if PairedNewLine(s) then "\n" + NormalizeNewLines(s[2..])
    else if IsNewLine(s[0]) then "\n" + NormalizeNewLines(s[1..])
    else [s[0]] + NormalizeNewLines(s[1..])
  }

  /** The number of line-break matches in `s`. */
  function NewLineMatches(s: string): nat
    decreases |s|
  {
    if s == [] then 0
    else if PairedNewLine(s) then 1 + NewLineMatches(s[2..])
    else if IsNewLine(s[0]) then 1 + NewLineMatches(s[1..])
    else NewLineMatches(s[1..])
  }

  /** The number of occurrences of `c` in `s`. */
  function Occurrences(s: string, c: char): nat
    decreases |s|
  {
    if s == [] then 0 else (if s[0] == c then 1 else 0) + Occurrences(s[1..], c)
  }

  // ---------------------------------------------------------------------------
  // Short strings: `^q(\\\\|\\q|\\\n|\\z\s*|[^q\n])*q` for a quote `q`.
  // ---------------------------------------------------------------------------

  /**
   * Where the rest of a short string from `i` ends (just past the closing
   * quote): the alternatives are tried in order, another repetition before
   * the closing quote, and a failed choice is undone as a backtracking
   * engine does.
   */
  function QuotedFrom(s: string, q: char, i: nat): (r: Option<nat>)
    requires i <= |s|
    ensures r.Some? ==> i < r.value <= |s| && s[r.value - 1] == q
    decreases |s| - i, 1, 0
  {
    if i == |s| then None
    else
      var escaped :=
        if i + 1 < |s| && s[i] == '\\' && (s[i + 1] == '\\' || s[i + 1] == q || s[i + 1] == '\n')
        then QuotedFrom(s, q, i + 2)
        else None;
      if escaped.Some? then escaped
      else
        var skipped :=
          if i + 1 < |s| && s[i] == '\\' && s[i + 1] == 'z'
          then SkipThenQuoted(s, q, i + 2, Span(s, i + 2, IsRegexSpace))
          else None;
        if skipped.Some? then skipped
        else
          var plain := if s[i] != q && s[i] != '\n' then QuotedFrom(s, q, i + 1) else None;
          if plain.Some? then plain
          else if s[i] == q then Some(i + 1)
          else None
  }

  /**
   * The `\s*` after `\z`, longest first: the first of the positions
   * `j + k`, `j + k - 1`, ..., `j` from which the rest of the string matches.
   */
  function SkipThenQuoted(s: string, q: char, j: nat, k: nat): (r: Option<nat>)
    requires j + k <= |s|
    ensures r.Some? ==> j < r.value <= |s| && s[r.value - 1] == q
    decreases |s| - j + 1, 0, k
  {
    var r := QuotedFrom(s, q, j + k);
    if r.Some? then r
    else if k == 0 then None
    else SkipThenQuoted(s, q, j, k - 1)
  }

  /** Length of the short string literal at the start of `s`, quotes included. */
  function ShortStringMatch(s: string): (r: Option<nat>)
    ensures r.Some? ==> 2 <= r.value <= |s| && s[r.value - 1] == s[0] && (s[0] == '\'' || s[0] == '"')
  {
    if 0 < |s| && (s[0] == '\'' || s[0] == '"') then QuotedFrom(s, s[0], 1) else None
  }

  // ---------------------------------------------------------------------------
  // Numerals and identifiers.
  // ---------------------------------------------------------------------------

  /** Where the optional exponent `[e1 e2][+\-]?\d+` that may start at `b` ends. */
  function ExponentEnd(s: string, b: nat, e1: char, e2: char): (r: nat)
    requires b <= |s|
    ensures b <= r <= |s|
  {
    if b < |s| && (s[b] == e1 || s[b] == e2) then
      var d := if b + 1 < |s| && (s[b + 1] == '+' || s[b + 1] == '-') then b + 2 else b + 1;
      var n := Span(s, d, IsDigit);
      if 0 < n then d + n else b
    else
      b
  }

  /** `s` starts with `0x` or `0X`, which selects the hexadecimal alternative. */
  predicate HexPrefix(s: string) {
    2 <= |s| && s[0] == '0' && (s[1] == 'x' || s[1] == 'X')
  }

  /** Where the digits `p*` from `i`, and an optional fraction `\.p*` after them, end. */
  function MantissaEnd(s: string, i: nat, p: char -> bool): (r: nat)
    requires i <= |s|
    ensures i <= r <= |s|
  {
    var a := i + Span(s, i, p);
    if a < |s| && s[a] == '.' then a + 1 + Span(s, a + 1, p) else a
  }

  /**
   * Length of the numeral at the start of `s`: the first alternative
   * `0[xX][\da-fA-F]*(\.[\da-fA-F]*)?([pP][+\-]?\d+)?` when `s` starts with
   * `0x` or `0X`, else `\d*(\.\d*)?([eE][+\-]?\d+)?`.
   */
  function NumberLength(s: string): (n: nat)
    ensures n <= |s|
    ensures 0 < |s| && (s[0] == '.' || IsDigit(s[0])) ==> 0 < n
  {
    if HexPrefix(s) then ExponentEnd(s, MantissaEnd(s, 2, IsHexDigit), 'p', 'P')
    else ExponentEnd(s, MantissaEnd(s, 0, IsDigit), 'e', 'E')
  }

  /**
   * Length of one match of the case-insensitive class `[a-z\d_]` at `i`: an
   * ASCII letter, digit or `_`, or the UTF-8 bytes of U+017F and U+212A,
   * whose case folds are `s` and `k`; 0 when none matches.
   */
  function WordCharAt(s: string, i: nat): (n: nat)
    requires i <= |s|
    ensures i + n <= |s| && n <= 3
  {
    if i < |s| && (IsLetter(s[i]) || IsDigit(s[i]) || s[i] == '_') then 1
    else if i + 1 < |s| && s[i] == '\U{00C5}' && s[i + 1] == '\U{00BF}' then 2
    else if i + 2 < |s| && s[i] == '\U{00E2}' && s[i + 1] == '\U{0084}' && s[i + 2] == '\U{00AA}' then 3
    else 0
  }

  /** Length of the run of word characters that starts at `i`. */
  function WordFrom(s: string, i: nat): (n: nat)
    requires i <= |s|
    ensures i + n <= |s|
    decreases |s| - i
  {
    var w := WordCharAt(s, i);
    if w == 0 then 0 else w + WordFrom(s, i + w)
  }

  /** Length of the identifier `(?i)[a-z_][a-z\d_]*` at the start of `s`. */
  function IdentifierLength(s: string): (n: nat)
    requires 0 < |s| && (s[0] == '_' || IsLetter(s[0]))
    ensures 1 <= n <= |s|
  {
    1 + WordFrom(s, 1)
  }

  // ---------------------------------------------------------------------------
  // Digit values and UTF-8.
  // ---------------------------------------------------------------------------

  /** The value of one hexadecimal (or decimal) digit. */
  function DigitValue(c: char): (v: nat)
    requires IsHexDigit(c)
    ensures v < 16 && (IsDigit(c) ==> v < 10)
  {
    if IsDigit(c) then c as int - '0' as int
    else if 'a' <= c <= 'f' then c as int - 'a' as int + 10
    else c as int - 'A' as int + 10
  }

  /** The value of a run of digits in base `b` (10 or 16), most significant first. */
  function DigitsValue(ds: string, b: nat): nat
    requires forall k | 0 <= k < |ds| :: IsHexDigit(ds[k])
    decreases |ds|
  {
    if ds == [] then 0 else DigitsValue(ds[..|ds| - 1], b) * b + DigitValue(ds[|ds| - 1])
  }

  /** The byte whose value is `v`. */
  function ByteChar(v: nat): (c: char)
    requires v < 256
    ensures c as int == v
  {
    v as char
  }

  /** The bytes that writing code point `v` as UTF-8 produces; a surrogate is written as U+FFFD. */
  function Utf8(v: nat): (r: string)
    requires v < 0x11_0000
  {
    if v < 0x80 then [ByteChar(v)]
    else if v < 0x800 then [ByteChar(0xC0 + v / 0x40), ByteChar(0x80 + v % 0x40)]
    else if 0xD800 <= v <= 0xDFFF then [ByteChar(0xEF), ByteChar(0xBF), ByteChar(0xBD)]
    else if v < 0x1_0000 then
      [ByteChar(0xE0 + v / 0x1000), ByteChar(0x80 + v / 0x40 % 0x40), ByteChar(0x80 + v % 0x40)]
    else
      [ByteChar(0xF0 + v / 0x4_0000), ByteChar(0x80 + v / 0x1000 % 0x40),
       ByteChar(0x80 + v / 0x40 % 0x40), ByteChar(0x80 + v % 0x40)]
  }
}
