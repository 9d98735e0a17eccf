/**
 * Properties of the Lua lexer's matchers: long brackets, the search for the
 * closing bracket, line-break normalisation, short strings and UTF-8.
 */
module LexerScanProps {
  import opened Outcomes
  import opened LexerAux
  import opened LexerScan

  /** A run of `m` bytes satisfying `p` that the byte after it ends is exactly what `Span` measures. */
  lemma {:induction false} SpanExact(s: string, i: nat, m: nat, p: char -> bool)
    requires i + m <= |s|
    requires forall k | i <= k < i + m :: p(s[k])
    requires i + m == |s| || !p(s[i + m])
    ensures Span(s, i, p) == m
    decreases m
  {
    if m > 0 {
      SpanExact(s, i + 1, m - 1, p);
    }
  }

  /** `OpeningAt` finds an opening long bracket of length `n` at `i` exactly when one is there. */
  lemma OpeningAtIsOpening(s: string, i: nat, n: nat)
    requires i + n <= |s|
    ensures OpeningAt(s, i) == Some(n) <==> IsOpening(s[i..i + n])
  {
    if IsOpening(s[i..i + n]) {
      assert forall k | i + 1 <= k < i + 1 + (n - 2) :: IsEquals(s[k]) by {
        forall k | i + 1 <= k < i + 1 + (n - 2) ensures IsEquals(s[k]) {
          assert s[k] == s[i..i + n][k - i];
        }
      }
      assert s[i + n - 1] == s[i..i + n][n - 1];
      SpanExact(s, i + 1, n - 2, IsEquals);
    }
    if OpeningAt(s, i) == Some(n) {
      var t := s[i..i + n];
      var k := Span(s, i + 1, IsEquals);
      assert n == k + 2;
      forall m | 0 < m < |t| - 1 ensures t[m] == '=' {
        assert t[m] == s[i + m];
        assert IsEquals(s[i + m]);
      }
    }
  }

  /** `FindOpening` returns the leftmost opening long bracket at or after `j`, or none when there is none. */
  lemma {:induction false} FindOpeningLeftmost(s: string, j: nat)
    requires j <= |s|
    ensures match FindOpening(s, j)
            case Some(f) =>
              OpeningAt(s, f.0) == Some(f.1) && forall k | j <= k < f.0 :: OpeningAt(s, k).None?
            case None => forall k | j <= k <= |s| :: OpeningAt(s, k).None?
    decreases |s| - j
  {
    if OpeningAt(s, j).None? && j < |s| {
      FindOpeningLeftmost(s, j + 1);
    }
  }

  /** `IndexFrom` returns the first occurrence of `t` at or after `j`, or none when `t` does not occur there. */
  lemma {:induction false} IndexFromFirst(s: string, t: string, j: nat)
    requires j <= |s|
    ensures match IndexFrom(s, t, j)
            case Some(k) => OccursAt(s, t, k) && forall m | j <= m < k :: !OccursAt(s, t, m)
            case None => forall m | j <= m <= |s| :: !OccursAt(s, t, m)
    decreases |s| - j
  {
    if !OccursAt(s, t, j) && j + |t| < |s| {
      IndexFromFirst(s, t, j + 1);
    }
  }

  /** Normalisation turns each line-break match into one line feed and leaves no carriage return. */
  lemma {:induction false} NormalizeNewLinesCounts(s: string)
    ensures Occurrences(NormalizeNewLines(s), '\n') == NewLineMatches(s)
    ensures '\r' !in NormalizeNewLines(s)
    decreases |s|
  {
    if s == [] {
    } else if PairedNewLine(s) {
      NormalizeNewLinesCounts(s[2..]);
      OccurrencesAppend("\n", NormalizeNewLines(s[2..]), '\n');
    } else if IsNewLine(s[0]) {
      NormalizeNewLinesCounts(s[1..]);
      OccurrencesAppend("\n", NormalizeNewLines(s[1..]), '\n');
    } else {
      NormalizeNewLinesCounts(s[1..]);
      OccurrencesAppend([s[0]], NormalizeNewLines(s[1..]), '\n');
    }
  }

  /** Counting occurrences distributes over concatenation. */
  lemma {:induction false} OccurrencesAppend(a: string, b: string, c: char)
    ensures Occurrences(a + b, c) == Occurrences(a, c) + Occurrences(b, c)
    decreases |a|
  {
    if a == [] {
      assert a + b == b;
    } else {
      assert (a + b)[1..] == a[1..] + b;
      OccurrencesAppend(a[1..], b, c);
    }
  }

  /** A text without line breaks is left as it is by normalisation and holds no match. */
  lemma {:induction false} NormalizeWithoutNewLines(s: string)
    requires forall k | 0 <= k < |s| :: !IsNewLine(s[k])
    ensures NormalizeNewLines(s) == s && NewLineMatches(s) == 0
    decreases |s|
  {
    if s != [] {
      NormalizeWithoutNewLines(s[1..]);
    }
  }

  /**
   * A short string whose body holds no quote of its kind, no line feed and
   * no backslash ends at the first closing quote.
   */
  lemma PlainShortString(q: char, body: string, rest: string)
    requires q == '\'' || q == '"'
    requires forall k | 0 <= k < |body| :: body[k] != q && body[k] != '\n' && body[k] != '\\'
    ensures ShortStringMatch([q] + body + [q] + rest) == Some(|body| + 2)
  {
    var s := [q] + body + [q] + rest;
    assert s[|body| + 1] == q;
    forall k | 1 <= k < |body| + 1 ensures s[k] != q && s[k] != '\n' && s[k] != '\\' {
      assert s[k] == body[k - 1];
    }
    assert s[0] == q;
    PlainRunQuoted(s, q, 1, |body| + 1);
  }

  /** From any position `i` of a run of plain bytes ending at a quote at `e`, the match ends just past `e`. */
  lemma {:induction false} PlainRunQuoted(s: string, q: char, i: nat, e: nat)
    requires 1 <= i <= e < |s| && s[e] == q && s[e] != '\\'
    requires forall k | i <= k < e :: s[k] != q && s[k] != '\n' && s[k] != '\\'
    ensures QuotedFrom(s, q, i) == Some(e + 1)
    decreases e - i
  {
    if i < e {
      PlainRunQuoted(s, q, i + 1, e);
    }
  }

  /**
   * From `i` up to the closing quote at `e`, the bytes form units of a short
   * string body: a byte other than the quote, a line feed or a backslash; a
   * backslash before a backslash, the quote or a line feed; or `\z` with all
   * the `\s` bytes after it.
   */
  predicate BodyUnits(s: string, q: char, i: nat, e: nat)
    requires i <= e < |s|
    decreases e - i
  {
    if i == e then true
    else if s[i] != '\\' then s[i] != q && s[i] != '\n' && BodyUnits(s, q, i + 1, e)
    else if i + 1 < e && (s[i + 1] == '\\' || s[i + 1] == q || s[i + 1] == '\n') then BodyUnits(s, q, i + 2, e)
    else
      i + 1 < e && s[i + 1] == 'z' &&
      var k := Span(s, i + 2, IsRegexSpace);
      i + 2 + k <= e && BodyUnits(s, q, i + 2 + k, e)
  }

  /** A body made of such units, escaped quotes included, is matched up to and with the quote at `e`. */
  lemma {:induction false} BodyUnitsQuoted(s: string, q: char, i: nat, e: nat)
    requires q == '\'' || q == '"'
    requires i <= e < |s| && s[e] == q && BodyUnits(s, q, i, e)
    ensures QuotedFrom(s, q, i) == Some(e + 1)
    decreases e - i
  {
    if i < e {
      if s[i] != '\\' {
        BodyUnitsQuoted(s, q, i + 1, e);
      } else if s[i + 1] == '\\' || s[i + 1] == q || s[i + 1] == '\n' {
        BodyUnitsQuoted(s, q, i + 2, e);
      } else {
        var k := Span(s, i + 2, IsRegexSpace);
        BodyUnitsQuoted(s, q, i + 2 + k, e);
        assert SkipThenQuoted(s, q, i + 2, k) == Some(e + 1);
      }
    }
  }

  /**
   * A quote, a body of units and the same quote is a short string literal:
   * an escaped quote, an escaped backslash, a backslash-newline and `\z`
   * with its blanks stay inside the match.
   */
  lemma ShortStringUnits(s: string, e: nat)
    requires 0 < e < |s| && (s[0] == '\'' || s[0] == '"') && s[e] == s[0]
    requires BodyUnits(s, s[0], 1, e)
    ensures ShortStringMatch(s) == Some(e + 1)
  {
    BodyUnitsQuoted(s, s[0], 1, e);
  }

  /** `'a\'b'` is matched whole, six bytes, and not cut at the escaped quote. */
  lemma EscapedQuoteExample(s: string, rest: string)
    requires s == "'a\\'b'" + rest
    ensures ShortStringMatch(s) == Some(6)
  {
    assert s[0] == '\'' && s[1] == 'a' && s[2] == '\\' && s[3] == '\'' && s[4] == 'b' && s[5] == '\'';
    assert BodyUnits(s, '\'', 4, 5);
    ShortStringUnits(s, 5);
  }

  /** `"\z`, a line feed, two spaces, `x"` is matched whole: `\z` takes the blanks, line feed included. */
  lemma SkipZExample(s: string, rest: string)
    requires s == "\"\\z\n  x\"" + rest
    ensures ShortStringMatch(s) == Some(8)
  {
    assert s[0] == '"' && s[1] == '\\' && s[2] == 'z' && s[6] == 'x' && s[7] == '"';
    assert IsRegexSpace(s[3]) && IsRegexSpace(s[4]) && IsRegexSpace(s[5]) && !IsRegexSpace(s[6]);
    SpanExact(s, 3, 3, IsRegexSpace);
    assert BodyUnits(s, '"', 6, 7);
    ShortStringUnits(s, 7);
  }

  // ---------------------------------------------------------------------------
  // Numerals.
  // ---------------------------------------------------------------------------

  /** Every byte of `t` satisfies `p`. */
  predicate AllOf(t: string, p: char -> bool) {
    forall k | 0 <= k < |t| :: p(t[k])
  }

  /** `f` is no fraction at all, or a `.` followed by digits (in the sense of `p`). */
  predicate IsFraction(f: string, p: char -> bool) {
    f == [] || (f[0] == '.' && forall k | 1 <= k < |f| :: p(f[k]))
  }

  /** `x` is an exponent `[e1 e2][+\-]?\d+`: the marker, an optional sign and at least one decimal digit. */
  predicate IsExponent(x: string, e1: char, e2: char) {
    2 <= |x| && (x[0] == e1 || x[0] == e2) &&
    var d := if x[1] == '+' || x[1] == '-' then 2 else 1;
    d < |x| && forall k | d <= k < |x| :: IsDigit(x[k])
  }

  /**
   * What follows the fraction `f` and the exponent `x` cannot extend the
   * numeral: no further digit, no `.` when there is no fraction, no
   * exponent that could be taken when there is none, and no further digit
   * after an exponent.
   */
  predicate NumeralEnds(f: string, x: string, rest: string, p: char -> bool, e1: char, e2: char) {
    (x + rest == [] || (!p((x + rest)[0]) && (f == [] ==> (x + rest)[0] != '.'))) &&
    (x == [] ==> forall m | 0 < m <= |rest| :: !IsExponent(rest[..m], e1, e2)) &&
    (x != [] ==> rest == [] || !IsDigit(rest[0]))
  }

  /** `Span` measures exactly a run `t` that the byte after it ends. */
  lemma SpanAfter(pre: string, t: string, after: string, p: char -> bool)
    requires AllOf(t, p) && (after == [] || !p(after[0]))
    ensures Span(pre + t + after, |pre|, p) == |t|
  {
    var s := pre + t + after;
    forall k | |pre| <= k < |pre| + |t| ensures p(s[k]) {
      assert s[k] == t[k - |pre|];
    }
    if after != [] {
      assert s[|pre| + |t|] == after[0];
    }
    SpanExact(s, |pre|, |t|, p);
  }

  /** The digits `ds` and the fraction `f` are the mantissa when what follows cannot extend them. */
  lemma MantissaEndIs(pre: string, ds: string, f: string, after: string, p: char -> bool)
    requires !p('.') && AllOf(ds, p) && IsFraction(f, p)
    requires after == [] || (!p(after[0]) && (f == [] ==> after[0] != '.'))
    ensures MantissaEnd(pre + ds + f + after, |pre|, p) == |pre| + |ds| + |f|
  {
    var s := pre + ds + f + after;
    if f == [] {
      assert s == pre + ds + after;
      SpanAfter(pre, ds, after, p);
      if after != [] {
        assert s[|pre| + |ds|] == after[0];
      }
    } else {
      assert s == pre + ds + (f + after);
      SpanAfter(pre, ds, f + after, p);
      assert s[|pre| + |ds|] == '.';
      assert s == (pre + ds + [f[0]]) + f[1..] + after;
      SpanAfter(pre + ds + [f[0]], f[1..], after, p);
    }
  }

  /** Where `ExponentEnd` moves past `b`, the bytes it takes are an exponent. */
  lemma ExponentFound(s: string, b: nat, e1: char, e2: char)
    requires b <= |s|
    ensures var c := ExponentEnd(s, b, e1, e2); c == b || IsExponent(s[b..c], e1, e2)
  {
    var c := ExponentEnd(s, b, e1, e2);
    if c != b {
      var x := s[b..c];
      var d := if b + 1 < |s| && (s[b + 1] == '+' || s[b + 1] == '-') then b + 2 else b + 1;
      assert x[0] == s[b] && x[1] == s[b + 1];
      forall k | d - b <= k < |x| ensures IsDigit(x[k]) {
        assert x[k] == s[b + k];
      }
    }
  }

  /** The exponent `x`, or none when `rest` cannot start one, is what `ExponentEnd` takes after `pre`. */
  lemma ExponentEndIs(pre: string, x: string, rest: string, e1: char, e2: char)
    requires x == [] ==> forall m | 0 < m <= |rest| :: !IsExponent(rest[..m], e1, e2)
    requires x != [] ==> IsExponent(x, e1, e2) && (rest == [] || !IsDigit(rest[0]))
    ensures ExponentEnd(pre + x + rest, |pre|, e1, e2) == |pre| + |x|
  {
    var s := pre + x + rest;
    var b := |pre|;
    if x != [] {
      var d := if x[1] == '+' || x[1] == '-' then 2 else 1;
      assert s[b] == x[0] && s[b + 1] == x[1];
      assert s == (pre + x[..d]) + x[d..] + rest;
      assert AllOf(x[d..], IsDigit) by {
        forall k | 0 <= k < |x| - d ensures IsDigit(x[d..][k]) {
          assert x[d..][k] == x[d + k];
        }
      }
      SpanAfter(pre + x[..d], x[d..], rest, IsDigit);
    } else {
      ExponentFound(s, b, e1, e2);
      var c := ExponentEnd(s, b, e1, e2);
      assert s[b..c] == rest[..c - b];
    }
  }

  /** The mantissa of a decimal numeral: the digits `ds` and the fraction `f`. */
  lemma DecimalMantissa(ds: string, f: string, x: string, rest: string)
    requires AllOf(ds, IsDigit) && IsFraction(f, IsDigit)
    requires NumeralEnds(f, x, rest, IsDigit, 'e', 'E')
    ensures MantissaEnd(ds + f + x + rest, 0, IsDigit) == |ds| + |f|
  {
    assert ds + f + x + rest == [] + ds + f + (x + rest);
    MantissaEndIs([], ds, f, x + rest, IsDigit);
  }

  /** The mantissa of a hexadecimal numeral: `0x`, the digits `hs` and the fraction `f`. */
  lemma HexMantissa(lead: string, hs: string, f: string, x: string, rest: string)
    requires |lead| == 2
    requires AllOf(hs, IsHexDigit) && IsFraction(f, IsHexDigit)
    requires NumeralEnds(f, x, rest, IsHexDigit, 'p', 'P')
    ensures MantissaEnd(lead + hs + f + x + rest, 2, IsHexDigit) == 2 + |hs| + |f|
  {
    assert lead + hs + f + x + rest == lead + hs + f + (x + rest);
    MantissaEndIs(lead, hs, f, x + rest, IsHexDigit);
  }

  /** `0x` or `0X` in front selects the hexadecimal alternative. */
  lemma HexLead(lead: string, hs: string, f: string, x: string, rest: string)
    requires |lead| == 2 && lead[0] == '0' && (lead[1] == 'x' || lead[1] == 'X')
    ensures HexPrefix(lead + hs + f + x + rest)
  {
    var s := lead + hs + f + x + rest;
    assert s[0] == lead[0] && s[1] == lead[1];
  }

  /**
   * A decimal numeral: digits `ds`, an optional fraction `f` and an
   * optional exponent `x`, followed by text that cannot extend it, is
   * matched exactly.
   */
  lemma DecimalNumeral(ds: string, f: string, x: string, rest: string)
    requires AllOf(ds, IsDigit) && IsFraction(f, IsDigit)
    requires x == [] || IsExponent(x, 'e', 'E')
    requires NumeralEnds(f, x, rest, IsDigit, 'e', 'E')
    requires !HexPrefix(ds + f + x + rest)
    ensures NumberLength(ds + f + x + rest) == |ds| + |f| + |x|
  {
    DecimalMantissa(ds, f, x, rest);
    ExponentEndIs(ds + f, x, rest, 'e', 'E');
  }

  /**
   * A hexadecimal numeral: `0x` or `0X`, hexadecimal digits `hs`, an
   * optional hexadecimal fraction `f` and an optional binary exponent `x`
   * with decimal digits, followed by text that cannot extend it, is matched
   * exactly.
   */
  lemma HexNumeral(lead: string, hs: string, f: string, x: string, rest: string)
    requires |lead| == 2 && lead[0] == '0' && (lead[1] == 'x' || lead[1] == 'X')
    requires AllOf(hs, IsHexDigit) && IsFraction(f, IsHexDigit)
    requires x == [] || IsExponent(x, 'p', 'P')
    requires NumeralEnds(f, x, rest, IsHexDigit, 'p', 'P')
    ensures NumberLength(lead + hs + f + x + rest) == 2 + |hs| + |f| + |x|
  {
    HexLead(lead, hs, f, x, rest);
    HexMantissa(lead, hs, f, x, rest);
    ExponentEndIs(lead + hs + f, x, rest, 'p', 'P');
  }

  /** In `12e+x` the exponent has no digit, so only `12` is taken. */
  lemma ExponentNeedsDigits(s: string)
    requires s == "12e+x"
    ensures NumberLength(s) == 2
  {
    var rest := "e+x";
    assert s == "12" + [] + [] + rest;
    forall m | 0 < m <= |rest| ensures !IsExponent(rest[..m], 'e', 'E') {
      var t := rest[..m];
      assert 2 <= m ==> t[1] == '+';
      assert m == 3 ==> t[2] == 'x';
    }
    DecimalNumeral("12", [], [], rest);
  }

  /** `3.25e-2` followed by `)` is taken whole: seven bytes. */
  lemma DecimalExample(s: string)
    requires s == "3.25e-2)"
    ensures NumberLength(s) == 7
  {
    var x := "e-2";
    assert IsExponent(x, 'e', 'E');
    assert s == "3" + ".25" + x + ")";
    DecimalNumeral("3", ".25", x, ")");
  }

  /** `0xA.8p1` followed by `;` is taken whole: seven bytes. */
  lemma HexExample(s: string)
    requires s == "0xA.8p1;"
    ensures NumberLength(s) == 7
  {
    var x := "p1";
    assert IsExponent(x, 'p', 'P');
    assert s == "0x" + "A" + ".8" + x + ";";
    HexNumeral("0x", "A", ".8", x, ";");
  }

  /**
   * Inside an identifier the case-insensitive class also takes the UTF-8
   * bytes of U+212A (Kelvin sign) and U+017F (long s): `k`, U+212A, `s`,
   * U+017F is one seven-byte word.
   */
  lemma FoldedWordBytes(s: string, rest: string)
    requires s == ['k', '\U{00E2}', '\U{0084}', '\U{00AA}', 's', '\U{00C5}', '\U{00BF}'] + rest
    requires rest == [] || WordCharAt(rest, 0) == 0
    ensures IdentifierLength(s) == 7
  {
    assert s[0] == 'k' && s[1] == '\U{00E2}' && s[2] == '\U{0084}' && s[3] == '\U{00AA}';
    assert s[4] == 's' && s[5] == '\U{00C5}' && s[6] == '\U{00BF}';
    if rest != [] {
      assert s[7] == rest[0];
      assert 8 < |s| ==> s[8] == rest[1];
      assert 9 < |s| ==> s[9] == rest[2];
    }
    assert WordFrom(s, 7) == 0;
    assert WordFrom(s, 5) == 2;
    assert WordFrom(s, 4) == 3;
    assert WordFrom(s, 1) == 6;
  }

  /** Reads the code point that `Utf8` writes back from its bytes. */
  function Utf8Decode(b: string): (v: int)
  {
    if |b| == 1 then b[0] as int
    else if |b| == 2 then (b[0] as int - 0xC0) * 0x40 + (b[1] as int - 0x80)
    else if |b| == 3 then (b[0] as int - 0xE0) * 0x1000 + (b[1] as int - 0x80) * 0x40 + (b[2] as int - 0x80)
    else if |b| == 4 then
      (b[0] as int - 0xF0) * 0x4_0000 + (b[1] as int - 0x80) * 0x1000 + (b[2] as int - 0x80) * 0x40 + (b[3] as int - 0x80)
    else -1
  }

  /** A continuation byte `10xxxxxx`. */
  predicate Continuation(c: char) {
    0x80 <= c as int < 0xC0
  }

  /**
   * `Utf8` writes a code point in the shortest form: one byte below 0x80,
   * then a lead byte and continuation bytes, and the bytes read back as the
   * code point; a surrogate comes out as U+FFFD.
   */
  lemma Utf8RoundTrip(v: nat)
    requires v < 0x11_0000
    ensures 1 <= |Utf8(v)| <= 4
    ensures !(0xD800 <= v <= 0xDFFF) ==> Utf8Decode(Utf8(v)) == v
    ensures 0xD800 <= v <= 0xDFFF ==> Utf8Decode(Utf8(v)) == 0xFFFD
    ensures |Utf8(v)| == 1 <==> v < 0x80
    ensures |Utf8(v)| == 2 ==> 0xC0 <= Utf8(v)[0] as int < 0xE0 && Continuation(Utf8(v)[1])
    ensures |Utf8(v)| == 3 ==> 0xE0 <= Utf8(v)[0] as int < 0xF0 && Continuation(Utf8(v)[1]) && Continuation(Utf8(v)[2])
    ensures |Utf8(v)| == 4 ==> 0xF0 <= Utf8(v)[0] as int < 0xF8 && forall k | 1 <= k < 4 :: Continuation(Utf8(v)[k])
  {
    if v < 0x80 {
    } else if v < 0x800 {
      Split64(v);
    } else if 0xD800 <= v <= 0xDFFF {
    } else if v < 0x1_0000 {
      Split64(v);
      Split64(v / 0x40);
      assert v / 0x40 / 0x40 == v / 0x1000;
    } else {
      Split64(v);
      Split64(v / 0x40);
      Split64(v / 0x1000);
      assert v / 0x40 / 0x40 == v / 0x1000;
      assert v / 0x1000 / 0x40 == v / 0x4_0000;
    }
  }

  /** The last six bits and the rest of a number. */
  lemma Split64(v: nat)
    ensures v == v / 0x40 * 0x40 + v % 0x40 && 0 <= v % 0x40 < 0x40
  {
  }
}
