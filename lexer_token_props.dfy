/**
 * Properties of the Lua lexer as a whole: escape decoding, longest match of
 * operators, whitespace skipping, the tokens `Scan` produces and the
 * look-ahead slot.
 */
module LexerProps {
  import opened Outcomes
  import opened LexerAux
  import opened LexerScan
  import opened LexerSpec
  import LexerScanProps

  // ---------------------------------------------------------------------------
  // Escape sequences.
  // ---------------------------------------------------------------------------

  /** One decoding step that succeeds: its bytes come first, then the decoding of what follows it. */
  lemma EscapeStep(str: string)
    requires str != [] && EscapeUnit(str).Ok?
    ensures Escape(str) == Prefixed(EscapeUnit(str).value.0, Escape(str[EscapeUnit(str).value.1..]))
  {
  }

  /** Each one-character escape, a backslash before a line feed included, writes one byte. */
  lemma SimpleEscapeWritesOne(c: char, rest: string)
    requires SimpleEscape(c).Some?
    ensures Escape(['\\', c] + rest) == Prefixed([SimpleEscape(c).value], Escape(rest))
  {
    var str := ['\\', c] + rest;
    assert str[1] == c;
    EscapeStep(str);
    assert str[2..] == rest;
  }

  /** `\z` skips the whitespace that follows it, line breaks included, and writes nothing. */
  lemma EscapeZSkipsWhiteSpace(w: string, rest: string)
    requires forall k | 0 <= k < |w| :: IsWhiteSpace(w[k])
    requires rest == [] || !IsWhiteSpace(rest[0])
    ensures Escape("\\z" + w + rest) == Escape(rest)
  {
    var str := "\\z" + w + rest;
    EscapeZUnit(str, w, rest);
    EscapeStep(str);
    PrefixedNothing(Escape(rest));
  }

  /** The step that decodes `\z` reads it and the whitespace after it. */
  lemma EscapeZUnit(str: string, w: string, rest: string)
    requires str == "\\z" + w + rest
    requires forall k | 0 <= k < |w| :: IsWhiteSpace(w[k])
    requires rest == [] || !IsWhiteSpace(rest[0])
    ensures EscapeUnit(str) == Ok(([], 2 + |w|)) && str[2 + |w|..] == rest
  {
    forall k | 2 <= k < 2 + |w| ensures IsWhiteSpace(str[k]) {
      assert str[k] == w[k - 2];
    }
    assert 2 + |w| == |str| || str[2 + |w|] == rest[0];
    LexerScanProps.SpanExact(str, 2, |w|, IsWhiteSpace);
    assert str[1] == 'z';
    assert str[2 + |w|..] == rest;
  }

  /** `\x` followed by two hexadecimal digits writes the byte they spell. */
  lemma HexEscapeWritesByte(h1: char, h2: char, rest: string)
    requires IsHexDigit(h1) && IsHexDigit(h2)
    ensures Escape(['\\', 'x', h1, h2] + rest)
            == Prefixed([ByteChar(DigitValue(h1) * 16 + DigitValue(h2))], Escape(rest))
  {
    var str := ['\\', 'x', h1, h2] + rest;
    assert str[1] == 'x' && str[2] == h1 && str[3] == h2;
    assert EscapeUnit(str) == Ok(([ByteChar(DigitValue(h1) * 16 + DigitValue(h2))], 4));
    EscapeStep(str);
    assert str[4..] == rest;
  }

  /** `\x` that is not followed by two hexadecimal digits makes no progress. */
  lemma HexEscapeNeedsTwoDigits(str: string)
    requires 2 <= |str| && str[0] == '\\' && str[1] == 'x'
    requires !(4 <= |str| && IsHexDigit(str[2]) && IsHexDigit(str[3]))
    ensures Escape(str) == Err(EscapeStuck)
  {
  }

  /**
   * A decimal escape reads at most three digits, even when more follow,
   * and its value must be below 255.
   */
  lemma DecimalEscapeThreeDigits(d1: char, d2: char, d3: char, rest: string)
    requires IsDigit(d1) && IsDigit(d2) && IsDigit(d3)
    ensures var v := DigitValue(d1) * 100 + DigitValue(d2) * 10 + DigitValue(d3);
            Escape(['\\', d1, d2, d3] + rest)
            == if v < 255 then Prefixed([ByteChar(v)], Escape(rest)) else Err(DecimalEscapeTooLarge)
  {
    var str := ['\\', d1, d2, d3] + rest;
    assert str[1] == d1 && str[2] == d2 && str[3] == d3;
    var run := Span(str, 1, IsDigit);
    assert 3 <= run;
    assert str[1..4] == [d1, d2, d3];
    ThreeDigitsValue(d1, d2, d3);
    var v := DigitValue(d1) * 100 + DigitValue(d2) * 10 + DigitValue(d3);
    assert EscapeUnit(str) == if v < 255 then Ok(([ByteChar(v)], 4)) else Err(DecimalEscapeTooLarge);
    assert str[4..] == rest;
    if v < 255 {
      EscapeStep(str);
    }
  }

  /** The value of three decimal digits. */
  lemma ThreeDigitsValue(d1: char, d2: char, d3: char)
    requires IsDigit(d1) && IsDigit(d2) && IsDigit(d3)
    ensures DigitsValue([d1, d2, d3], 10) == DigitValue(d1) * 100 + DigitValue(d2) * 10 + DigitValue(d3)
  {
    assert [d1][..0] == [];
    assert DigitsValue([d1], 10) == DigitValue(d1);
    assert [d1, d2][..1] == [d1];
    assert DigitsValue([d1, d2], 10) == DigitValue(d1) * 10 + DigitValue(d2);
    assert [d1, d2, d3][..2] == [d1, d2];
  }

  /** `\u{...}` writes the UTF-8 bytes of a code point below 0x10FFFF. */
  lemma UnicodeEscape(ds: string, rest: string)
    requires 0 < |ds| && forall k | 0 <= k < |ds| :: IsHexDigit(ds[k])
    ensures var v := DigitsValue(ds, 16);
            Escape("\\u{" + ds + "}" + rest)
            == if v < 0x10_FFFF then Prefixed(Utf8(v), Escape(rest)) else Err(Utf8ValueTooLarge)
  {
    var str := "\\u{" + ds + "}" + rest;
    assert str[1] == 'u' && str[2] == '{';
    forall k | 3 <= k < 3 + |ds| ensures IsHexDigit(str[k]) {
      assert str[k] == ds[k - 3];
    }
    assert str[3 + |ds|] == '}';
    LexerScanProps.SpanExact(str, 3, |ds|, IsHexDigit);
    assert str[3..3 + |ds|] == ds;
    assert str[4 + |ds|..] == rest;
    var v := DigitsValue(ds, 16);
    assert EscapeUnit(str) == if v < 0x10_FFFF then Ok((Utf8(v), 4 + |ds|)) else Err(Utf8ValueTooLarge);
    if v < 0x10_FFFF {
      EscapeStep(str);
    }
  }

  /** `\u` without `{`, a digit and `}` makes no progress. */
  lemma UnicodeEscapeNeedsDigits(rest: string)
    ensures Escape("\\u{}" + rest) == Err(EscapeStuck)
    ensures Escape("\\u" + rest) == Err(EscapeStuck) || (0 < |rest| && rest[0] == '{')
  {
    EmptyBracesStuck("\\u{}" + rest, rest);
    NoBraceStuck("\\u" + rest, rest);
  }

  /** `\u{}` holds no digit, so its unit cannot progress. */
  lemma EmptyBracesStuck(str: string, rest: string)
    requires str == "\\u{}" + rest
    ensures EscapeUnit(str) == Err(EscapeStuck)
    ensures Escape(str) == Err(EscapeStuck)
  {
    assert str[1] == 'u' && str[2] == '{' && str[3] == '}';
    assert Span(str, 3, IsHexDigit) == 0;
  }

  /** `\u` not followed by `{` cannot progress. */
  lemma NoBraceStuck(str: string, rest: string)
    requires str == "\\u" + rest
    ensures Escape(str) == Err(EscapeStuck) || (0 < |rest| && rest[0] == '{')
  {
    assert str[1] == 'u';
    assert 3 <= |str| ==> str[2] == rest[0];
  }

  /** Any other byte after a backslash is an invalid escape, and so is a backslash at the end. */
  lemma InvalidEscapes(c: char, rest: string)
    requires SimpleEscape(c).None? && !IsDigit(c) && c != 'x' && c != 'u' && c != 'z'
    ensures Escape(['\\', c] + rest) == Err(InvalidEscape(c))
    ensures Escape("\\") == Err(UnfinishedString)
  {
    assert (['\\', c] + rest)[1] == c;
  }

  /** A body without a backslash decodes to itself. */
  lemma {:induction false} EscapeWithoutBackslash(str: string)
    requires '\\' !in str
    ensures Escape(str) == Ok(str)
    decreases |str|
  {
    if str != [] {
      assert str[0] != '\\';
      assert '\\' !in str[1..];
      EscapeWithoutBackslash(str[1..]);
      EscapeStep(str);
      assert [str[0]] + str[1..] == str;
    }
  }

  // ---------------------------------------------------------------------------
  // Operators and punctuation: longest match.
  // ---------------------------------------------------------------------------

  /** The kinds of the 33 punctuation and operator tokens: 1 up to 33. */
  predicate IsSymbol(k: int) {
    TOKEN_VARARG <= k <= TOKEN_OP_LEN
  }

  /** The spelling of each punctuation or operator kind. */
  function SymbolText(k: int): (t: string)
    requires IsSymbol(k)
    ensures 1 <= |t| <= 3
  {
    if k == TOKEN_VARARG then "..."
    else if k == TOKEN_SEP_SEMI then ";"
    else if k == TOKEN_SEP_COMMA then ","
    else if k == TOKEN_SEP_DOT then "."
    else if k == TOKEN_SEP_COLON then ":"
    else if k == TOKEN_SEP_LABEL then "::"
    else if k == TOKEN_SEP_LPAREN then "("
    else if k == TOKEN_SEP_RPAREN then ")"
    else if k == TOKEN_SEP_LBRACK then "["
    else if k == TOKEN_SEP_RBRACK then "]"
    else if k == TOKEN_SEP_LCURLY then "{"
    else if k == TOKEN_SEP_RCURLY then "}"
    else if k == TOKEN_OP_ASSIGN then "="
    else if k == TOKEN_OP_MINUS then "-"
    else if k == TOKEN_OP_WAVE then "~"
    else if k == TOKEN_OP_ADD then "+"
    else if k == TOKEN_OP_MUL then "*"
    else if k == TOKEN_OP_DIV then "/"
    else if k == TOKEN_OP_IDIV then "//"
    else if k == TOKEN_OP_POW then "^"
    else if k == TOKEN_OP_MOD then "%"
    else if k == TOKEN_OP_BAND then "&"
    else if k == TOKEN_OP_BOR then "|"
    else if k == TOKEN_OP_SHR then ">>"
    else if k == TOKEN_OP_SHL then "<<"
    else if k == TOKEN_OP_CONCAT then ".."
    else if k == TOKEN_OP_LT then "<"
    else if k == TOKEN_OP_LE then "<="
    else if k == TOKEN_OP_GT then ">"
    else if k == TOKEN_OP_GE then ">="
    else if k == TOKEN_OP_EQ then "=="
    else if k == TOKEN_OP_NE then "~="
    else "#"
  }

  /**
   * `FixedToken` reads the longest punctuation or operator spelling that
   * starts the text, and reports its kind; it reads none only when no
   * spelling starts the text, or for `[[`, `[=` and a `.` before a digit.
   */
  lemma FixedTokenLongest(s: string)
    requires 0 < |s|
    ensures FixedToken(s).Some? ==>
              var k := FixedToken(s).value.0;
              var n := FixedToken(s).value.1;
              IsSymbol(k) && SymbolText(k) == s[..n]
              && forall j | IsSymbol(j) && HasPrefix(s, SymbolText(j)) :: |SymbolText(j)| <= n
    ensures FixedToken(s).None? ==>
              (forall j | IsSymbol(j) :: !HasPrefix(s, SymbolText(j)))
              || HasPrefix(s, "[[") || HasPrefix(s, "[=") || (s[0] == '.' && 1 < |s| && IsDigit(s[1]))
  {
    FixedTokenSpelling(s);
    forall j | IsSymbol(j) && HasPrefix(s, SymbolText(j))
      ensures FixedToken(s).Some? ==> |SymbolText(j)| <= FixedToken(s).value.1
      ensures FixedToken(s).None? ==>
                HasPrefix(s, "[[") || HasPrefix(s, "[=") || (s[0] == '.' && 1 < |s| && IsDigit(s[1]))
    {
      FixedTokenCovers(s, j);
    }
  }

  /** What `FixedToken` reads is the spelling of the kind it reports. */
  lemma FixedTokenSpelling(s: string)
    requires 0 < |s|
    ensures FixedToken(s).Some? ==>
              IsSymbol(FixedToken(s).value.0) && SymbolText(FixedToken(s).value.0) == s[..FixedToken(s).value.1]
  {
    if FixedToken(s).Some? {
      var n := FixedToken(s).value.1;
      assert s[..n][0] == s[0];
      assert 2 <= n ==> s[..n][1] == s[1];
      assert n == 3 ==> s[..n][2] == s[2];
    }
  }

  /** A spelling that starts the text is no longer than what `FixedToken` reads. */
  lemma FixedTokenCovers(s: string, j: int)
    requires 0 < |s| && IsSymbol(j) && HasPrefix(s, SymbolText(j))
    ensures FixedToken(s).Some? ==> |SymbolText(j)| <= FixedToken(s).value.1
    ensures FixedToken(s).None? ==>
              HasPrefix(s, "[[") || HasPrefix(s, "[=") || (s[0] == '.' && 1 < |s| && IsDigit(s[1]))
  {
    var t := SymbolText(j);
    assert t[0] == s[0] by {
      assert s[..|t|][0] == s[0];
    }
    assert 2 <= |t| ==> t[1] == s[1] by {
      if 2 <= |t| {
        assert s[..|t|][1] == s[1];
      }
    }
    assert |t| == 3 ==> t[2] == s[2] by {
      if |t| == 3 {
        assert s[..|t|][2] == s[2];
      }
    }
  }

  // ---------------------------------------------------------------------------
  // Whitespace and comments.
  // ---------------------------------------------------------------------------

  /** At a token there is nothing to skip. */
  lemma SkipNothingAtToken(c: Cursor)
    requires AtToken(c.chunk)
    ensures SkipWhiteSpaces(c) == Ok(c)
  {
  }

  /**
   * Skipping a run `w` of whitespace up to a token reads exactly `w` and
   * moves down one line per line-break match in `w`; without a line break the
   * column grows by `|w|`.
   */
  lemma {:induction false} SkipBlankRun(c: Cursor, w: string, rest: string)
    requires c.chunk == w + rest
    requires forall k | 0 <= k < |w| :: IsWhiteSpace(w[k])
    requires AtToken(rest)
    ensures SkipWhiteSpaces(c).Ok?
    ensures SkipWhiteSpaces(c).value.chunk == rest
    ensures SkipWhiteSpaces(c).value.line == c.line + NewLineMatches(w)
    ensures NewLineMatches(w) == 0 ==> SkipWhiteSpaces(c).value.column == c.column + |w|
    decreases |w|
  {
    if w == [] {
      assert c.chunk == rest;
      SkipNothingAtToken(c);
    } else {
      var n := BlankStep(c, w, rest);
      SkipBlankRun(BlankNext(c, w), w[n..], rest);
    }
  }

  /** Where the whitespace skipper goes from `c` when its text starts with the whitespace `w`. */
  function BlankNext(c: Cursor, w: string): Cursor
    requires w != [] && w[0] == (if c.chunk == [] then w[0] else c.chunk[0])
  {
    if PairedNewLine(w) && 2 <= |c.chunk| then NextLine(Advance(c, 2))
    else if IsNewLine(w[0]) && 1 <= |c.chunk| then NextLine(Advance(c, 1))
    else if 1 <= |c.chunk| then Advance(c, 1)
    else c
  }

  /** One step of `SkipBlankRun`: the skipper reads `n` bytes of `w` and counts their line break. */
  lemma BlankStep(c: Cursor, w: string, rest: string) returns (n: nat)
    requires c.chunk == w + rest && w != []
    requires forall k | 0 <= k < |w| :: IsWhiteSpace(w[k])
    requires AtToken(rest)
    ensures n == (if PairedNewLine(w) then 2 else 1) && n <= |w|
    ensures BlankNext(c, w).chunk == w[n..] + rest
    ensures forall k | 0 <= k < |w[n..]| :: IsWhiteSpace(w[n..][k])
    ensures SkipWhiteSpaces(c) == SkipWhiteSpaces(BlankNext(c, w))
    ensures NewLineMatches(w) == NewLineMatches(w[n..]) + BlankNext(c, w).line - c.line
    ensures BlankNext(c, w).line == c.line ==> BlankNext(c, w).column == c.column + n && NewLineMatches(w) == NewLineMatches(w[n..])
    ensures c.line <= BlankNext(c, w).line
  {
    BlankStart(w, rest);
    SkipWhiteStep(c);
    n := if PairedNewLine(w) then 2 else 1;
    DropAppend(w, rest, n);
  }

  /** Dropping a prefix of the first part of a concatenation. */
  lemma DropAppend(a: string, b: string, n: nat)
    requires n <= |a|
    ensures (a + b)[n..] == a[n..] + b
  {
  }

  /** Whitespace before a token begins with a two-byte line break exactly when the whitespace alone does. */
  lemma BlankStart(w: string, rest: string)
    requires w != [] && forall k | 0 <= k < |w| :: IsWhiteSpace(w[k])
    requires AtToken(rest)
    ensures (w + rest)[0] == w[0] && IsWhiteSpace(w[0])
    ensures PairedNewLine(w + rest) == PairedNewLine(w)
  {
    if |w| == 1 && 0 < |rest| {
      assert (w + rest)[1] == rest[0];
    } else if 2 <= |w| {
      assert (w + rest)[1] == w[1];
    }
  }

  /** One step of the whitespace skipper at a whitespace byte. */
  lemma SkipWhiteStep(c: Cursor)
    requires c.chunk != [] && IsWhiteSpace(c.chunk[0])
    ensures SkipWhiteSpaces(c)
            == if PairedNewLine(c.chunk) then SkipWhiteSpaces(NextLine(Advance(c, 2)))
               else if IsNewLine(c.chunk[0]) then SkipWhiteSpaces(NextLine(Advance(c, 1)))
               else SkipWhiteSpaces(Advance(c, 1))
  {
    assert !HasPrefix(c.chunk, "--") by {
      if 2 <= |c.chunk| {
        assert c.chunk[..2][0] == c.chunk[0];
      }
    }
    assert PairedNewLine(c.chunk) <==> HasPrefix(c.chunk, "\r\n") || HasPrefix(c.chunk, "\n\r") by {
      if 2 <= |c.chunk| {
        assert c.chunk[..2] == [c.chunk[0], c.chunk[1]];
      }
    }
  }

  /**
   * A comment that does not open with `[` runs to the end of its line: the
   * line break stays unread, and the line does not change.
   */
  lemma LineComment(c: Cursor, body: string, rest: string)
    requires c.chunk == "--" + body + rest
    requires forall k | 0 <= k < |body| :: !IsNewLine(body[k])
    requires body == [] || body[0] != '['
    requires rest == [] || IsNewLine(rest[0])
    ensures SkipComment(c) == Ok(Cursor(rest, c.line, c.column + 2 + |body|))
  {
    assert HasPrefix(c.chunk, "--") by {
      assert c.chunk[..2] == "--";
    }
    var c1 := Advance(c, 2);
    assert c1.chunk == body + rest by {
      assert c.chunk == "--" + (body + rest);
      DropAppend("--", body + rest, 2);
    }
    assert !HasPrefix(c1.chunk, "[") by {
      if body != [] {
        assert c1.chunk[0] == body[0];
      } else if rest != [] {
        assert c1.chunk[0] == rest[0];
      }
    }
    SkipLineRun(c1, body, rest);
  }

  /** `SkipLine` reads a run of bytes without line break up to a line break or the end. */
  lemma {:induction false} SkipLineRun(c: Cursor, body: string, rest: string)
    requires c.chunk == body + rest
    requires forall k | 0 <= k < |body| :: !IsNewLine(body[k])
    requires rest == [] || IsNewLine(rest[0])
    ensures SkipLine(c) == Cursor(rest, c.line, c.column + |body|)
    decreases |body|
  {
    if body == [] {
      assert c.chunk == rest;
    } else {
      assert c.chunk[0] == body[0];
      DropAppend(body, rest, 1);
      SkipLineRun(Advance(c, 1), body[1..], rest);
    }
  }

  // ---------------------------------------------------------------------------
  // Tokens.
  // ---------------------------------------------------------------------------

  /** On exhausted input `Scan` reports end of input where the cursor is and reads nothing. */
  lemma ScanAtEnd(c: Cursor)
    requires c.chunk == []
    ensures Scan(c) == Ok((c, Token(c.line, c.column, TOKEN_EOF, "EOF")))
  {
  }

  /**
   * With the look-ahead slot empty and the input exhausted, `NextToken`
   * returns end of input and leaves the state as it is, so it keeps doing so.
   */
  lemma EndOfInputSticky(m: LexState)
    requires m.ahead.line <= 0 && m.cursor.chunk == []
    ensures NextToken(m) == Ok((m, Token(m.cursor.line, m.cursor.column, TOKEN_EOF, "EOF")))
  {
    ScanAtEnd(m.cursor);
  }

  /** A punctuation or operator token is read as `FixedToken` says; its position is the one after it. */
  lemma ScanSymbol(c: Cursor)
    requires c.chunk != [] && AtToken(c.chunk) && FixedToken(c.chunk).Some?
    ensures var n := FixedToken(c.chunk).value.1;
            Scan(c) == Ok((Advance(c, n), Token(c.line, c.column + n, FixedToken(c.chunk).value.0, c.chunk[..n])))
  {
    SkipNothingAtToken(c);
  }

  /** A byte of an identifier after its first: a letter, a digit or `_`. */
  predicate IsWordByte(c: char) {
    IsLetter(c) || IsDigit(c) || c == '_'
  }

  /**
   * A word, that is a letter or `_` and then letters, digits and `_`, that
   * no further identifier byte follows, is read whole, as a keyword when it
   * is reserved and as an identifier otherwise.
   */
  lemma ScanWord(c: Cursor, word: string, rest: string)
    requires c.chunk == word + rest && word != [] && (word[0] == '_' || IsLetter(word[0]))
    requires forall k | 0 <= k < |word| :: IsWordByte(word[k])
    requires rest == [] || WordCharAt(rest, 0) == 0
    ensures Scan(c) == Ok((Cursor(rest, c.line, c.column + |word|), Token(c.line, c.column + |word|, WordKind(word), word)))
  {
    assert c.chunk[0] == word[0];
    IdentifierRun(c.chunk, word, rest);
    ScanWordStart(c);
    assert c.chunk[..|word|] == word;
    DropAppend(word, rest, |word|);
  }

  /** At a letter or `_`, `Scan` reads `IdentifierLength` bytes as a word. */
  lemma ScanWordStart(c: Cursor)
    requires c.chunk != [] && (c.chunk[0] == '_' || IsLetter(c.chunk[0]))
    ensures var n := IdentifierLength(c.chunk);
            Scan(c) == Ok((Advance(c, n), Token(c.line, c.column + n, WordKind(c.chunk[..n]), c.chunk[..n])))
  {
    SkipNothingAtToken(c);
    assert FixedToken(c.chunk).None?;
  }

  /** `IdentifierLength` measures exactly a word that no further identifier byte follows. */
  lemma IdentifierRun(s: string, word: string, rest: string)
    requires s == word + rest && word != [] && (word[0] == '_' || IsLetter(word[0]))
    requires forall k | 0 <= k < |word| :: IsWordByte(word[k])
    requires rest == [] || WordCharAt(rest, 0) == 0
    ensures IdentifierLength(s) == |word|
  {
    assert s[0] == word[0];
    WordRun(s, word, rest, 1);
  }

  /** From inside a word, `WordFrom` reaches exactly the end of the word. */
  lemma {:induction false} WordRun(s: string, word: string, rest: string, i: nat)
    requires s == word + rest && i <= |word|
    requires forall k | 0 <= k < |word| :: IsWordByte(word[k])
    requires rest == [] || WordCharAt(rest, 0) == 0
    ensures WordFrom(s, i) == |word| - i
    decreases |word| - i
  {
    if i < |word| {
      assert s[i] == word[i];
      assert WordCharAt(s, i) == 1;
      WordRun(s, word, rest, i + 1);
    } else {
      WordEnd(s, word, rest);
    }
  }

  /** Whether an identifier byte sequence starts at the end of a word depends only on what follows it. */
  lemma WordEnd(s: string, word: string, rest: string)
    requires s == word + rest
    requires rest == [] || WordCharAt(rest, 0) == 0
    ensures WordCharAt(s, |word|) == 0
  {
    var i := |word|;
    if rest != [] {
      assert s[i] == rest[0];
      assert i + 1 < |s| ==> s[i + 1] == rest[1];
      assert i + 2 < |s| ==> s[i + 2] == rest[2];
    }
  }

  /** `while` is a keyword kind and `and` an operator kind. */
  lemma KeywordOrOperator()
    ensures WordKind("while") == TOKEN_KW_WHILE
    ensures WordKind("and") == TOKEN_OP_AND
  {
  }

  /** A `.` before a digit starts a numeral, not a punctuation token. */
  lemma ScanDotDigit(c: Cursor)
    requires 2 <= |c.chunk| && c.chunk[0] == '.' && IsDigit(c.chunk[1])
    ensures Scan(c).Ok? && Scan(c).value.1.kind == TOKEN_NUMBER
  {
    SkipNothingAtToken(c);
  }

  /**
   * At a digit, or at a `.` before a digit, `Scan` reads `NumberLength`
   * bytes as one numeral token.
   */
  lemma ScanNumberStart(c: Cursor)
    requires c.chunk != [] && (IsDigit(c.chunk[0]) || (2 <= |c.chunk| && c.chunk[0] == '.' && IsDigit(c.chunk[1])))
    ensures var n := NumberLength(c.chunk);
            Scan(c) == Ok((Advance(c, n), Token(c.line, c.column + n, TOKEN_NUMBER, c.chunk[..n])))
  {
    SkipNothingAtToken(c);
    assert FixedToken(c.chunk).None?;
  }

  /** Apart from string tokens, the reported position is that of the cursor after the token. */
  lemma ScanReportsCursor(c: Cursor)
    requires Scan(c).Ok? && Scan(c).value.1.kind != TOKEN_STRING
    ensures Scan(c).value.1.line == Scan(c).value.0.line
    ensures Scan(c).value.1.column == Scan(c).value.0.column
  {
  }

  // ---------------------------------------------------------------------------
  // The look-ahead slot.
  // ---------------------------------------------------------------------------

  /**
   * `LookAhead` with an empty slot scans one token, keeps it in the slot and
   * puts the line and column back; a second `LookAhead` then changes nothing
   * and returns the same kind.
   */
  lemma LookAheadRepeats(m: LexState)
    requires m.ahead.line <= 0 && 1 <= m.cursor.line
    ensures match LookAhead(m)
            case Ok(p) =>
              p.0.cursor.line == m.cursor.line && p.0.cursor.column == m.cursor.column
              && 0 < p.0.ahead.line && p.0.ahead.kind == p.1
              && LookAhead(p.0) == Ok(p)
            case Err(e) => NextToken(m) == Err(e)
  {
  }

  /**
   * After a `LookAhead` with an empty slot, `NextToken` returns the token a
   * direct `NextToken` would have returned, with the kind `LookAhead`
   * reported, reads no further and empties the slot.
   */
  lemma LookAheadThenNextToken(m: LexState)
    requires m.ahead.line <= 0 && 1 <= m.cursor.line
    requires LookAhead(m).Ok?
    ensures NextToken(m).Ok? && NextToken(LookAhead(m).value.0).Ok?
    ensures NextToken(LookAhead(m).value.0).value.1 == NextToken(m).value.1
    ensures NextToken(m).value.1.kind == LookAhead(m).value.1
    ensures NextToken(LookAhead(m).value.0).value.0.cursor.chunk == NextToken(m).value.0.cursor.chunk
    ensures NextToken(LookAhead(m).value.0).value.0.ahead.line == 0
    ensures NextToken(m).value.1.kind != TOKEN_STRING ==>
              NextToken(LookAhead(m).value.0).value.0.cursor == NextToken(m).value.0.cursor
  {
    if NextToken(m).value.1.kind != TOKEN_STRING {
      ScanReportsCursor(m.cursor);
    }
  }

  /** `NextTokenOfKind` succeeds exactly when the next token has the kind asked for. */
  lemma NextTokenOfKindChecks(m: LexState, kind: int)
    ensures NextTokenOfKind(m, kind).Ok? <==> NextToken(m).Ok? && NextToken(m).value.1.kind == kind
    ensures NextTokenOfKind(m, kind).Ok? ==>
              NextTokenOfKind(m, kind).value.0 == NextToken(m).value.0
              && NextTokenOfKind(m, kind).value.1.2 == NextToken(m).value.1.text
  {
  }

  // ---------------------------------------------------------------------------
  // Long brackets.
  // ---------------------------------------------------------------------------

  /**
   * A long string is cut around the first opening bracket found and the
   * first closing bracket of its level, and the cut fails when the closing
   * bracket starts before the length of the opening one.
   */
  lemma LongStringParts(c: Cursor, i: nat, n: nat, k: nat)
    requires FindOpening(c.chunk, 0) == Some((i, n))
    requires IndexFrom(c.chunk, ReplaceAll(c.chunk[i..i + n], '[', ']'), 0) == Some(k)
    ensures k < n ==> LongString(c) == Err(LongStringSliceBounds)
    ensures n <= k ==> LongString(c) == Ok(FinishLongString(c.chunk[k + n..], c.line, c.chunk[n..k]))
  {
    var open := c.chunk[i..i + n];
    OpensWith(c, i, n);
    CloseParts(c, open, k);
  }

  /** The opening bracket `FindOpening` finds is the one the long string is closed against. */
  lemma OpensWith(c: Cursor, i: nat, n: nat)
    requires FindOpening(c.chunk, 0) == Some((i, n))
    ensures 2 <= n && i + n <= |c.chunk| && |c.chunk[i..i + n]| == n
    ensures LongString(c) == CloseLongString(c, c.chunk[i..i + n])
  {
  }

  /** The cut made once the closing bracket of `open` is found at `k`. */
  lemma CloseParts(c: Cursor, open: string, k: nat)
    requires 2 <= |open| && IndexFrom(c.chunk, ReplaceAll(open, '[', ']'), 0) == Some(k)
    ensures k < |open| ==> CloseLongString(c, open) == Err(LongStringSliceBounds)
    ensures |open| <= k ==>
              CloseLongString(c, open) == Ok(FinishLongString(c.chunk[k + |open|..], c.line, c.chunk[|open|..k]))
  {
    assert |ReplaceAll(open, '[', ']')| == |open|;
  }

  /** An opening bracket with none before it is the one `FindOpening` finds. */
  lemma FindOpeningIs(s: string, j: nat, i: nat, n: nat)
    requires j <= i <= |s| && OpeningAt(s, i) == Some(n)
    requires forall k | j <= k < i :: OpeningAt(s, k).None?
    ensures FindOpening(s, j) == Some((i, n))
  {
    LexerScanProps.FindOpeningLeftmost(s, j);
  }

  /** An occurrence with none before it is the one `IndexFrom` finds. */
  lemma IndexFromIs(s: string, t: string, j: nat, i: nat)
    requires j <= i <= |s| && OccursAt(s, t, i)
    requires forall m | j <= m < i :: !OccursAt(s, t, m)
    ensures IndexFrom(s, t, j) == Some(i)
  {
    LexerScanProps.IndexFromFirst(s, t, j);
  }

  /** A slice is the text its bytes spell. */
  lemma SliceIs(s: string, i: nat, t: string)
    requires i + |t| <= |s| && forall d | 0 <= d < |t| :: s[i + d] == t[d]
    ensures s[i..i + |t|] == t
  {
  }

  /** `t` does not occur at `m` when one of its bytes differs. */
  lemma Mismatch(s: string, t: string, m: nat, d: nat)
    requires d < |t| && m + d < |s| && s[m + d] != t[d]
    ensures !OccursAt(s, t, m)
  {
  }

  /** A level-2 long string: one leading line feed is dropped and the line count grows by one. */
  lemma LongStringExample(s: string)
    requires s == "[==[\nab]]]==]z"
    ensures LongString(Cursor(s, 3, 7)) == Ok((Cursor("z", 4, 0), "ab]]"))
  {
    LevelTwoBrackets(s);
    SliceIs(s, 13, "z");
    SliceIs(s, 4, "\nab]]");
    LongStringParts(Cursor(s, 3, 7), 0, 4, 9);
    LevelTwoFinish();
  }

  /** The brackets of the level-2 example: `[==[` at 0 and `]==]` first at 9. */
  lemma LevelTwoBrackets(s: string)
    requires s == "[==[\nab]]]==]z"
    ensures FindOpening(s, 0) == Some((0, 4))
    ensures ReplaceAll(s[0..4], '[', ']') == "]==]"
    ensures IndexFrom(s, "]==]", 0) == Some(9)
  {
    LexerScanProps.SpanExact(s, 1, 2, IsEquals);
    SliceIs(s, 0, "[==[");
    forall m | 0 <= m < 9 ensures !OccursAt(s, "]==]", m) {
      if m < 7 {
        Mismatch(s, "]==]", m, 0);
      } else {
        Mismatch(s, "]==]", m, 1);
      }
    }
    SliceIs(s, 9, "]==]");
    IndexFromIs(s, "]==]", 0, 9);
  }

  /** The body of the level-2 example after normalisation. */
  lemma LevelTwoFinish()
    ensures FinishLongString("z", 3, "\nab]]") == (Cursor("z", 4, 0), "ab]]")
  {
    LexerScanProps.NormalizeWithoutNewLines("ab]]");
    assert "\nab]]"[1..] == "ab]]";
    assert NormalizeNewLines("\nab]]") == "\nab]]";
    assert Occurrences("ab]]", '\n') == 0 by {
      assert "ab]]"[1..] == "b]]" && "b]]"[1..] == "]]" && "]]"[1..] == "]" && "]"[1..] == "";
    }
    assert "\nab]]"[1..] == "ab]]";
  }

  /**
   * The opening bracket is searched for anywhere in the rest of the text, but
   * the text is cut as if it started at the cursor: in `[=x]] [[` the bracket
   * `[[` is found at index 6, and the text between index 2 and the first
   * `]]` is returned.
   */
  lemma LongStringUnanchored(s: string)
    requires s == "[=x]] [["
    ensures LongString(Cursor(s, 1, 1)) == Ok((Cursor(" [[", 1, 0), "x"))
  {
    UnanchoredBrackets(s);
    SliceIs(s, 5, " [[");
    SliceIs(s, 2, "x");
    LongStringParts(Cursor(s, 1, 1), 6, 2, 3);
    assert NormalizeNewLines("x") == "x" && Occurrences("x", '\n') == 0 by {
      assert "x"[1..] == "";
    }
  }

  /** The brackets of the unanchored example: `[[` first at 6 and `]]` first at 3. */
  lemma UnanchoredBrackets(s: string)
    requires s == "[=x]] [["
    ensures FindOpening(s, 0) == Some((6, 2))
    ensures ReplaceAll(s[6..8], '[', ']') == "]]"
    ensures IndexFrom(s, "]]", 0) == Some(3)
  {
    assert OpeningAt(s, 0).None? by {
      LexerScanProps.SpanExact(s, 1, 1, IsEquals);
    }
    assert OpeningAt(s, 6) == Some(2) by {
      LexerScanProps.SpanExact(s, 7, 0, IsEquals);
    }
    FindOpeningIs(s, 0, 6, 2);
    SliceIs(s, 6, "[[");
    Mismatch(s, "]]", 0, 0);
    Mismatch(s, "]]", 1, 0);
    Mismatch(s, "]]", 2, 0);
    SliceIs(s, 3, "]]");
    IndexFromIs(s, "]]", 0, 3);
  }

  /**
   * When the first closing bracket comes before the end of the opening
   * bracket, as in `x]] [[`, the text cannot be cut and reading fails.
   */
  lemma LongStringCutFails(s: string)
    requires s == "x]] [["
    ensures LongString(Cursor(s, 1, 1)) == Err(LongStringSliceBounds)
  {
    assert OpeningAt(s, 4) == Some(2) by {
      LexerScanProps.SpanExact(s, 5, 0, IsEquals);
    }
    FindOpeningIs(s, 0, 4, 2);
    SliceIs(s, 4, "[[");
    assert ReplaceAll(s[4..6], '[', ']') == "]]";
    Mismatch(s, "]]", 0, 0);
    SliceIs(s, 1, "]]");
    IndexFromIs(s, "]]", 0, 1);
    LongStringParts(Cursor(s, 1, 1), 4, 2, 1);
  }
}
