/**
 * The Lua lexer as pure functions over its state: one function per lexer
 * operation, each returning the new state and its result, or the error at
 * which the lexer stops.
 */
module LexerSpec {
  import opened Outcomes
  import opened LexerAux
  import opened LexerScan

  /** Why the lexer stops. */
  datatype LexError =
    | UnexpectedSymbol(symbol: char)   // no token starts with this byte
    | InvalidLongStringDelimiter       // no opening long bracket anywhere in the rest of the text
    | UnfinishedLongString             // no matching closing long bracket
    | LongStringSliceBounds            // the closing bracket is found before the end of the opening one
    | UnfinishedString                 // no closing quote, or a lone `\` at the end of a string
    | DecimalEscapeTooLarge            // `\ddd` with a value of 255 or more
    | Utf8ValueTooLarge                // `\u{...}` with a value of 0x10FFFF or more
    | InvalidEscape(letter: char)      // `\` followed by a byte that starts no escape
    | EscapeStuck                      // `\x` or `\u` in a form the decoder never gets past
    | SyntaxError(token: string)       // a token of another kind than the one expected

  /** The unread text and the current line and column. */
  datatype Cursor = Cursor(chunk: string, line: int, column: int)

  /** A token with the position reported for it, its kind and its text. */
  datatype Token = Token(line: int, column: int, kind: int, text: string)

  /**
   * The whole lexer: the cursor and the look-ahead slot, which holds a
   * token exactly when its line is positive.
   */
  datatype LexState = LexState(cursor: Cursor, ahead: Token)

  /** The state of a lexer that has not read anything from `chunk`. */
  function Initial(chunk: string): LexState {
    LexState(Cursor(chunk, 1, 1), Token(0, 0, TOKEN_EOF, ""))
  }

  /** `b`'s text is what is left of `a`'s after some bytes are read. */
  predicate Consumes(a: Cursor, b: Cursor) {
    |b.chunk| <= |a.chunk| && b.chunk == a.chunk[|a.chunk| - |b.chunk|..]
  }

  /** From `a` to `b` no text is added and the line does not go back. */
  predicate Progress(a: Cursor, b: Cursor) {
    |b.chunk| <= |a.chunk| && a.line <= b.line
  }

  /** Reads `n` bytes on the current line. */
  function Advance(c: Cursor, n: nat): (r: Cursor)
    requires n <= |c.chunk|
    ensures c.chunk == c.chunk[..n] + r.chunk && |r.chunk| == |c.chunk| - n
    ensures r.line == c.line && r.column == c.column + n
  {
    Cursor(c.chunk[n..], c.line, c.column + n)
  }

  /** Moves to the start of the next line. */
  function NextLine(c: Cursor): Cursor {
    Cursor(c.chunk, c.line + 1, 0)
  }

  /** Reads up to (not including) the next line break or the end of the text. */
  function SkipLine(c: Cursor): (r: Cursor)
    ensures |r.chunk| <= |c.chunk| && r.line == c.line
    decreases |c.chunk|
  {
    if c.chunk != [] && !IsNewLine(c.chunk[0]) then SkipLine(Advance(c, 1)) else c
  }

  // ---------------------------------------------------------------------------
  // Long strings and comments.
  // ---------------------------------------------------------------------------

  /**
   * A long string: the opening bracket is the first one found anywhere in
   * the rest of the text, the closing bracket the first occurrence of the
   * same level; the text between them is taken as if the opening bracket
   * started at the cursor. Line breaks become line feeds, the line count
   * grows by the number of them, the column becomes 0, and one leading line
   * feed is dropped.
   */
  function LongString(c: Cursor): (r: Result<(Cursor, string), LexError>)
    ensures r.Ok? ==> Progress(c, r.value.0) && |r.value.0.chunk| < |c.chunk|
  {
    match FindOpening(c.chunk, 0)
    case None => Err(InvalidLongStringDelimiter)
    case Some(found) => CloseLongString(c, c.chunk[found.0..found.0 + found.1])
  }

  /** A long string whose opening bracket is `open`, from where its closing bracket is found. */
  function CloseLongString(c: Cursor, open: string): (r: Result<(Cursor, string), LexError>)
    requires 2 <= |open|
    ensures r.Ok? ==> Progress(c, r.value.0) && |r.value.0.chunk| < |c.chunk|
  {
    var close := ReplaceAll(open, '[', ']');
    match IndexFrom(c.chunk, close, 0)
    case None => Err(UnfinishedLongString)
    case Some(k) =>
      if k < |open| then Err(LongStringSliceBounds)
      else Ok(FinishLongString(c.chunk[k + |close|..], c.line, c.chunk[|open|..k]))
  }

  /**
   * The cursor at `rest` and the text of a long string whose body, before
   * its line breaks are normalised, is `raw`; the string started on `line`.
   */
  function FinishLongString(rest: string, line: int, raw: string): (r: (Cursor, string))
    ensures r.0.chunk == rest && line <= r.0.line
  {
    var body := NormalizeNewLines(raw);
    var text := if 0 < |body| && body[0] == '\n' then body[1..] else body;
    (Cursor(rest, line + Occurrences(body, '\n'), 0), text)
  }

  /**
   * A comment, from its `--`: a long comment when a `[` follows and an
   * opening long bracket occurs anywhere in the rest of the text, otherwise
   * the rest of the line.
   */
  function SkipComment(c: Cursor): (r: Result<Cursor, LexError>)
    requires HasPrefix(c.chunk, "--")
    ensures r.Ok? ==> Progress(c, r.value) && |r.value.chunk| < |c.chunk|
  {
    var c1 := Advance(c, 2);
    if HasPrefix(c1.chunk, "[") && FindOpening(c1.chunk, 0).Some? then
      var p :- LongString(c1);
      Ok(p.0)
    else
      Ok(SkipLine(c1))
  }

  /** The text at which the whitespace skipper stops: nothing, or neither whitespace nor a comment. */
  predicate AtToken(s: string) {
    s == [] || (!IsWhiteSpace(s[0]) && !HasPrefix(s, "--"))
  }

  /**
   * Skips whitespace and comments. `\r\n`, `\n\r` and a lone line break
   * each start a new line.
   */
  function SkipWhiteSpaces(c: Cursor): (r: Result<Cursor, LexError>)
    ensures r.Ok? ==> Progress(c, r.value) && AtToken(r.value.chunk)
    decreases |c.chunk|
  {
    if c.chunk == [] then Ok(c)
    else if HasPrefix(c.chunk, "--") then
      var c1 :- SkipComment(c);
      SkipWhiteSpaces(c1)
    else if HasPrefix(c.chunk, "\r\n") || HasPrefix(c.chunk, "\n\r") then
      SkipWhiteSpaces(NextLine(Advance(c, 2)))
    else if IsNewLine(c.chunk[0]) then
      SkipWhiteSpaces(NextLine(Advance(c, 1)))
    else if IsWhiteSpace(c.chunk[0]) then
      SkipWhiteSpaces(Advance(c, 1))
    else
      Ok(c)
  }

  // ---------------------------------------------------------------------------
  // Short strings and escape sequences.
  // ---------------------------------------------------------------------------

  /** The byte a one-character escape `\c` stands for, if `c` starts one. */
  function SimpleEscape(c: char): Option<char> {
    if c == 'a' then Some('\U{0007}')
    else if c == 'b' then Some('\U{0008}')
    else if c == 'f' then Some('\U{000C}')
    else if c == 'n' || c == '\n' then Some('\n')
    else if c == 'r' then Some('\r')
    else if c == 't' then Some('\t')
    else if c == 'v' then Some('\U{000B}')
    else if c == '"' || c == '\'' || c == '\\' then Some(c)
    else None
  }

  /**
   * One step of escape decoding at the start of `str`: the bytes it
   * writes and how many bytes of `str` it reads.
   */
  function EscapeUnit(str: string): (r: Result<(string, nat), LexError>)
    requires 0 < |str|
    ensures r.Ok? ==> 0 < r.value.1 <= |str|
  {
    if str[0] != '\\' then Ok(([str[0]], 1))
    else if |str| == 1 then Err(UnfinishedString)
    else if SimpleEscape(str[1]).Some? then Ok(([SimpleEscape(str[1]).value], 2))
    else if IsDigit(str[1]) then
      var run := Span(str, 1, IsDigit);
      var n := if run < 3 then run else 3;
      var d := DigitsValue(str[1..1 + n], 10);
      if d < 0xFF then Ok(([ByteChar(d)], 1 + n)) else Err(DecimalEscapeTooLarge)
    else if str[1] == 'x' then
      if 4 <= |str| && IsHexDigit(str[2]) && IsHexDigit(str[3]) then
        Ok(([ByteChar(DigitValue(str[2]) * 16 + DigitValue(str[3]))], 4))
      else
        Err(EscapeStuck)
    else if str[1] == 'u' then
      var h := if 3 <= |str| && str[2] == '{' then Span(str, 3, IsHexDigit) else 0;
      if 0 < h && 3 + h < |str| && str[3 + h] == '}' then
        var d := DigitsValue(str[3..3 + h], 16);
        if d < 0x10_FFFF then Ok((Utf8(d), 4 + h)) else Err(Utf8ValueTooLarge)
      else
        Err(EscapeStuck)
    else if str[1] == 'z' then Ok(([], 2 + Span(str, 2, IsWhiteSpace)))
    else Err(InvalidEscape(str[1]))
  }

  /** The bytes a short string's body stands for once its escapes are decoded. */
  function Escape(str: string): (r: Result<string, LexError>)
    decreases |str|
  {
    if str == [] then Ok([])
    else
      var u :- EscapeUnit(str);
      var rest :- Escape(str[u.1..]);
      Ok(u.0 + rest)
  }

  /** A successful `Result` with `prefix` put in front of its text. */
  function Prefixed(prefix: string, r: Result<string, LexError>): Result<string, LexError> {
    if r.Ok? then Ok(prefix + r.value) else r
  }

  /** Putting `b` and then `a` in front is putting `a + b` in front. */
  lemma PrefixedAssociative(a: string, b: string, r: Result<string, LexError>)
    ensures Prefixed(a, Prefixed(b, r)) == Prefixed(a + b, r)
  {
    if r.Ok? {
      assert a + (b + r.value) == (a + b) + r.value;
    }
  }

  /** Putting nothing in front changes nothing. */
  lemma PrefixedNothing(r: Result<string, LexError>)
    ensures Prefixed([], r) == r
  {
    if r.Ok? {
      assert [] + r.value == r.value;
    }
  }

  /**
   * A short string: the body between the quotes is decoded when it holds a
   * `\`, and then the line count grows by the line breaks in the body and
   * the column becomes 0.
   */
  function ShortString(c: Cursor): (r: Result<(Cursor, string), LexError>)
    requires 0 < |c.chunk| && (c.chunk[0] == '\'' || c.chunk[0] == '"')
    ensures r.Ok? ==> Progress(c, r.value.0) && |r.value.0.chunk| < |c.chunk|
  {
    match ShortStringMatch(c.chunk)
    case None => Err(UnfinishedString)
    case Some(n) => FinishShortString(c, n)
  }

  /** A short string `n` bytes long, quotes included. */
  function FinishShortString(c: Cursor, n: nat): (r: Result<(Cursor, string), LexError>)
    requires 2 <= n <= |c.chunk|
    ensures r.Ok? ==> Progress(c, r.value.0) && |r.value.0.chunk| < |c.chunk|
  {
    var body := c.chunk[1..n - 1];
    if '\\' in body then
      var text :- Escape(body);
      Ok((Cursor(c.chunk[n..], c.line + NewLineMatches(body), 0), text))
    else
      Ok((Advance(c, n), body))
  }

  // ---------------------------------------------------------------------------
  // Tokens.
  // ---------------------------------------------------------------------------

  /**
   * The punctuation or operator token at the start of `s`, as its kind and
   * length. There is none for `[[` and `[=` (long strings) and for a `.`
   * followed by a digit (a numeral).
   */
  function FixedToken(s: string): (r: Option<(int, nat)>)
    requires 0 < |s|
    ensures r.Some? ==> 0 < r.value.1 <= |s|
  {
    var c := s[0];
    if c == '+' then Some((TOKEN_OP_ADD, 1))
    else if c == '-' then Some((TOKEN_OP_MINUS, 1))
    else if c == '*' then Some((TOKEN_OP_MUL, 1))
    else if c == '%' then Some((TOKEN_OP_MOD, 1))
    else if c == '^' then Some((TOKEN_OP_POW, 1))
    else if c == '#' then Some((TOKEN_OP_LEN, 1))
    else if c == '&' then Some((TOKEN_OP_BAND, 1))
    else if c == '|' then Some((TOKEN_OP_BOR, 1))
    else if c == ';' then Some((TOKEN_SEP_SEMI, 1))
    else if c == ',' then Some((TOKEN_SEP_COMMA, 1))
    else if c == '(' then Some((TOKEN_SEP_LPAREN, 1))
    else if c == ')' then Some((TOKEN_SEP_RPAREN, 1))
    else if c == '{' then Some((TOKEN_SEP_LCURLY, 1))
    else if c == '}' then Some((TOKEN_SEP_RCURLY, 1))
    else if c == ']' then Some((TOKEN_SEP_RBRACK, 1))
    else if c == '/' then
      if HasPrefix(s, "//") then Some((TOKEN_OP_IDIV, 2)) else Some((TOKEN_OP_DIV, 1))
    else if c == '~' then
      if HasPrefix(s, "~=") then Some((TOKEN_OP_NE, 2)) else Some((TOKEN_OP_WAVE, 1))
    else if c == '<' then
      if HasPrefix(s, "<<") then Some((TOKEN_OP_SHL, 2))
      else if HasPrefix(s, "<=") then Some((TOKEN_OP_LE, 2))
      else Some((TOKEN_OP_LT, 1))
    else if c == '>' then
      if HasPrefix(s, ">>") then Some((TOKEN_OP_SHR, 2))
      else if HasPrefix(s, ">=") then Some((TOKEN_OP_GE, 2))
      else Some((TOKEN_OP_GT, 1))
    else if c == '=' then
      if HasPrefix(s, "==") then Some((TOKEN_OP_EQ, 2)) else Some((TOKEN_OP_ASSIGN, 1))
    else if c == ':' then
      if HasPrefix(s, "::") then Some((TOKEN_SEP_LABEL, 2)) else Some((TOKEN_SEP_COLON, 1))
    else if c == '.' then
      if HasPrefix(s, "...") then Some((TOKEN_VARARG, 3))
      else if HasPrefix(s, "..") then Some((TOKEN_OP_CONCAT, 2))
      else if |s| == 1 || !IsDigit(s[1]) then Some((TOKEN_SEP_DOT, 1))
      else None
    else if c == '[' then
      if HasPrefix(s, "[[") || HasPrefix(s, "[=") then None else Some((TOKEN_SEP_LBRACK, 1))
    else
      None
  }

  /** The kind of an identifier-shaped word: its keyword kind, if it is reserved. */
  function WordKind(word: string): (k: int)
    ensures word in KEYWORDS <==> k != TOKEN_IDENTIFIER
  {
    if word in KEYWORDS then KEYWORDS[word] else TOKEN_IDENTIFIER
  }

  /**
   * Reads one token after skipping whitespace and comments; the reported
   * position is the one after the token.
   */
  function Scan(c: Cursor): (r: Result<(Cursor, Token), LexError>)
    ensures r.Ok? ==> Progress(c, r.value.0) && c.line <= r.value.1.line
  {
    var c1 :- SkipWhiteSpaces(c);
    var s := c1.chunk;
    if s == [] then Ok((c1, Token(c1.line, c1.column, TOKEN_EOF, "EOF")))
    else
      var fixed := FixedToken(s);
      if fixed.Some? then
        var c2 := Advance(c1, fixed.value.1);
        Ok((c2, Token(c2.line, c2.column, fixed.value.0, s[..fixed.value.1])))
      else if s[0] == '[' then
        var p :- LongString(c1);
        Ok((p.0, Token(p.0.line, p.0.column, TOKEN_STRING, p.1)))
      else if s[0] == '\'' || s[0] == '"' then
        var p :- ShortString(c1);
        Ok((p.0, Token(p.0.line, p.0.column, TOKEN_STRING, p.1)))
      else if s[0] == '.' || IsDigit(s[0]) then
        var n := NumberLength(s);
        var c2 := Advance(c1, n);
        Ok((c2, Token(c2.line, c2.column, TOKEN_NUMBER, s[..n])))
      else if s[0] == '_' || IsLetter(s[0]) then
        var n := IdentifierLength(s);
        var c2 := Advance(c1, n);
        Ok((c2, Token(c2.line, c2.column, WordKind(s[..n]), s[..n])))
      else
        Err(UnexpectedSymbol(s[0]))
  }

  /** The next token: the one in the look-ahead slot, which is then emptied, else a freshly scanned one. */
  function NextToken(m: LexState): (r: Result<(LexState, Token), LexError>)
  {
    if 0 < m.ahead.line then
      var t := m.ahead;
      Ok((LexState(Cursor(m.cursor.chunk, t.line, t.column), t.(line := 0, column := 0)), t))
    else
      var p :- Scan(m.cursor);
      Ok((LexState(p.0, m.ahead), p.1))
  }

  /**
   * The kind of the next token. A token is scanned only when the slot is
   * empty; it is then kept in the slot and the line and column are put back,
   * while the text stays read.
   */
  function LookAhead(m: LexState): (r: Result<(LexState, int), LexError>)
  {
    if 0 < m.ahead.line then Ok((m, m.ahead.kind))
    else
      var p :- NextToken(m);
      Ok((LexState(Cursor(p.0.cursor.chunk, m.cursor.line, m.cursor.column), p.1), p.1.kind))
  }

  /** The next token's line, column and text, which must have kind `kind`. */
  function NextTokenOfKind(m: LexState, kind: int): (r: Result<(LexState, (int, int, string)), LexError>)
  {
    var p :- NextToken(m);
    if p.1.kind != kind then Err(SyntaxError(p.1.text))
    else Ok((p.0, (p.1.line, p.1.column, p.1.text)))
  }
}
