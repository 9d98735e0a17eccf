/**
 * The Lua lexer as an object: its fields are updated in place by each
 * operation, and every operation is proved to do what the corresponding
 * function of `LexerSpec` says, state and result alike.
 */
module LuaLexer {
  import opened Outcomes
  import opened LexerAux
  import opened LexerScan
  import opened LexerSpec

  class Lexer {
    var chunk: string
    const chunkName: string
    var curLine: int
    var curColumn: int

    // The look-ahead slot; it holds a token exactly when `nextTokenLine` is positive.
    var nextToken: string
    var nextTokenKind: int
    var nextTokenLine: int
    var nextTokenColumn: int

    /** The unread text and the current position. */
    function View(): Cursor
      reads this
    {
      Cursor(chunk, curLine, curColumn)
    }

    /** Every field, as the value `LexerSpec` works on. */
    function State(): LexState
      reads this
    {
      LexState(View(), Token(nextTokenLine, nextTokenColumn, nextTokenKind, nextToken))
    }

    /** A lexer at line 1, column 1 of `chunk`, with an empty look-ahead slot. */
    constructor (chunk: string, chunkName: string)
      ensures State() == Initial(chunk) && this.chunkName == chunkName
    {
      this.chunk := chunk;
      this.chunkName := chunkName;
      curLine := 1;
      curColumn := 1;
      nextToken := "";
      nextTokenKind := TOKEN_EOF;
      nextTokenLine := 0;
      nextTokenColumn := 0;
    }

    /** The current line. */
    function Line(): int
      reads this
    {
      curLine
    }

    /** Reads `n` bytes. */
    method Next(n: nat)
      requires n <= |chunk|
      modifies this
      ensures chunk == old(chunk)[n..] && curColumn == old(curColumn) + n
      ensures curLine == old(curLine) && State().ahead == old(State().ahead)
    {
      chunk := chunk[n..];
      curColumn := curColumn + n;
    }

    /** Skips whitespace and comments. */
    method SkipWhiteSpaces() returns (r: Result<(), LexError>)
      modifies this
      ensures match LexerSpec.SkipWhiteSpaces(old(View()))
              case Ok(c) => r.Ok? && View() == c
              case Err(e) => r == Err(e)
      ensures State().ahead == old(State().ahead)
    {
      while 0 < |chunk|
        invariant LexerSpec.SkipWhiteSpaces(old(View())) == LexerSpec.SkipWhiteSpaces(View())
        invariant State().ahead == old(State().ahead)
        decreases |chunk|
      {
        ghost var here := View();
        if HasPrefix(chunk, "--") {
          var skipped := SkipComment();
          if skipped.Err? {
            return skipped;
          }
        } else if HasPrefix(chunk, "\r\n") || HasPrefix(chunk, "\n\r") {
          Next(2);
          curLine := curLine + 1;
          curColumn := 0;
          assert View() == NextLine(Advance(here, 2));
        } else if IsNewLine(chunk[0]) {
          Next(1);
          curLine := curLine + 1;
          curColumn := 0;
          assert View() == NextLine(Advance(here, 1));
        } else if IsWhiteSpace(chunk[0]) {
          Next(1);
        } else {
          break;
        }
      }
      return Ok(());
    }

    /** Skips a comment from its `--`. */
    method SkipComment() returns (r: Result<(), LexError>)
      requires HasPrefix(chunk, "--")
      modifies this
      ensures match LexerSpec.SkipComment(old(View()))
              case Ok(c) => r.Ok? && View() == c
              case Err(e) => r == Err(e)
      ensures State().ahead == old(State().ahead)
    {
      Next(2);
      if HasPrefix(chunk, "[") && FindOpening(chunk, 0).Some? {
        var s := ScanLongString();
        if s.Err? {
          return Err(s.error);
        }
        return Ok(());
      }
      SkipLine();
      return Ok(());
    }

    /** The loop of `SkipComment` that reads up to the end of the line. */
    method SkipLine()
      modifies this
      ensures View() == LexerSpec.SkipLine(old(View()))
      ensures State().ahead == old(State().ahead)
    {
      ghost var start := View();
      while 0 < |chunk| && !IsNewLine(chunk[0])
        invariant LexerSpec.SkipLine(View()) == LexerSpec.SkipLine(start)
        invariant State().ahead == old(State().ahead)
        decreases |chunk|
      {
        Next(1);
      }
    }

    /** Reads a long string or the body of a long comment. */
    method ScanLongString() returns (r: Result<string, LexError>)
      modifies this
      ensures match LongString(old(View()))
              case Ok(p) => r == Ok(p.1) && View() == p.0
              case Err(e) => r == Err(e)
      ensures State().ahead == old(State().ahead)
    {
      var found := FindOpening(chunk, 0);
      if found.None? {
        return Err(InvalidLongStringDelimiter);
      }
      var open := chunk[found.value.0..found.value.0 + found.value.1];
      r := CloseLongString(open);
    }

    /** The part of `ScanLongString` after the opening bracket `open` is found. */
    method CloseLongString(open: string) returns (r: Result<string, LexError>)
      requires 2 <= |open|
      modifies this
      ensures match LexerSpec.CloseLongString(old(View()), open)
              case Ok(p) => r == Ok(p.1) && View() == p.0
              case Err(e) => r == Err(e)
      ensures State().ahead == old(State().ahead)
    {
      var close := ReplaceAll(open, '[', ']');
      var closeIndex := IndexFrom(chunk, close, 0);
      if closeIndex.None? {
        return Err(UnfinishedLongString);
      }
      if closeIndex.value < |open| {
        return Err(LongStringSliceBounds);
      }
      var str := FinishLongString(|open|, closeIndex.value, |close|);
      return Ok(str);
    }

    /**
     * The part of `ScanLongString` after both brackets are found: the body
     * is `chunk[start..end]` and the closing bracket is `width` bytes wide.
     */
    method FinishLongString(start: nat, end: nat, width: nat) returns (str: string)
      requires start <= end && end + width <= |chunk|
      modifies this
      ensures (View(), str) == LexerSpec.FinishLongString(old(chunk)[end + width..], old(curLine), old(chunk)[start..end])
      ensures State().ahead == old(State().ahead)
    {
      str := chunk[start..end];
      Next(end + width);
      str := NormalizeNewLines(str);
      curLine := curLine + Occurrences(str, '\n');
      curColumn := 0;
      if 0 < |str| && str[0] == '\n' {
        str := str[1..];
      }
    }

    /** Reads a short string and decodes its escapes. */
    method ScanShortString() returns (r: Result<string, LexError>)
      requires 0 < |chunk| && (chunk[0] == '\'' || chunk[0] == '"')
      modifies this
      ensures match ShortString(old(View()))
              case Ok(p) => r == Ok(p.1) && View() == p.0
              case Err(e) => r == Err(e)
      ensures State().ahead == old(State().ahead)
    {
      ghost var start := View();
      var length := ShortStringMatch(chunk);
      if length.None? {
        return Err(UnfinishedString);
      }
      var str := chunk[..length.value];
      Next(length.value);
      str := str[1..|str| - 1];
      assert str == start.chunk[1..length.value - 1];
      if '\\' in str {
        curLine := curLine + NewLineMatches(str);
        curColumn := 0;
        r := Escape(str);
        return;
      }
      return Ok(str);
    }

    /** Decodes the escape sequences of a short string's body. */
    method Escape(str0: string) returns (r: Result<string, LexError>)
      ensures r == LexerSpec.Escape(str0)
    {
      var buf: string := [];
      var str := str0;
      PrefixedNothing(LexerSpec.Escape(str0));
      while 0 < |str|
        invariant LexerSpec.Escape(str0) == Prefixed(buf, LexerSpec.Escape(str))
        decreases |str|
      {
        var unit := EscapeUnit(str);
        if unit.Err? {
          return Err(unit.error);
        }
        PrefixedAssociative(buf, unit.value.0, LexerSpec.Escape(str[unit.value.1..]));
        buf := buf + unit.value.0;
        str := str[unit.value.1..];
      }
      assert buf + [] == buf;
      return Ok(buf);
    }

    /** Reads a numeral, which the caller has seen starts with a digit or `.`. */
    method ScanNumber() returns (token: string)
      requires 0 < |chunk| && (chunk[0] == '.' || IsDigit(chunk[0]))
      modifies this
      ensures 0 < |token| && old(chunk) == token + chunk
      ensures State() == old(State()).(cursor := Advance(old(View()), NumberLength(old(chunk))))
    {
      var n := NumberLength(chunk);
      token := chunk[..n];
      Next(n);
    }

    /** Reads an identifier or reserved word, which the caller has seen starts with a letter or `_`. */
    method ScanIdentifier() returns (token: string)
      requires 0 < |chunk| && (chunk[0] == '_' || IsLetter(chunk[0]))
      modifies this
      ensures 0 < |token| && old(chunk) == token + chunk
      ensures State() == old(State()).(cursor := Advance(old(View()), IdentifierLength(old(chunk))))
    {
      var n := IdentifierLength(chunk);
      token := chunk[..n];
      Next(n);
    }

    /** Returns the next token, from the look-ahead slot when it holds one. */
    method NextToken() returns (r: Result<Token, LexError>)
      modifies this
      ensures match LexerSpec.NextToken(old(State()))
              case Ok(p) => r == Ok(p.1) && State() == p.0
              case Err(e) => r == Err(e)
    {
      if 0 < nextTokenLine {
        var t := Token(nextTokenLine, nextTokenColumn, nextTokenKind, nextToken);
        curLine := nextTokenLine;
        curColumn := nextTokenColumn;
        nextTokenLine := 0;
        nextTokenColumn := 0;
        return Ok(t);
      }
      r := Scan();
    }

    /** `NextToken` when the look-ahead slot is empty: skips whitespace and comments and reads a token. */
    method Scan() returns (r: Result<Token, LexError>)
      modifies this
      ensures match LexerSpec.Scan(old(View()))
              case Ok(p) => r == Ok(p.1) && View() == p.0
              case Err(e) => r == Err(e)
      ensures State().ahead == old(State().ahead)
    {
      var skipped := SkipWhiteSpaces();
      if skipped.Err? {
        return Err(skipped.error);
      }
      if |chunk| == 0 {
        return Ok(Token(curLine, curColumn, TOKEN_EOF, "EOF"));
      }
      r := ScanToken(old(View()));
    }

    /** The token at the start of the unread text, once `Scan` has skipped from `c` up to it. */
    method ScanToken(ghost c: Cursor) returns (r: Result<Token, LexError>)
      requires LexerSpec.SkipWhiteSpaces(c) == Ok(View()) && |chunk| > 0
      modifies this
      ensures match LexerSpec.Scan(c)
              case Ok(p) => r == Ok(p.1) && View() == p.0
              case Err(e) => r == Err(e)
      ensures State().ahead == old(State().ahead)
    {
      var fixed := FixedToken(chunk);
      if fixed.Some? {
        var text := chunk[..fixed.value.1];
        Next(fixed.value.1);
        return Ok(Token(curLine, curColumn, fixed.value.0, text));
      }
      var c0 := chunk[0];
      if c0 == '[' {
        var s := ScanLongString();
        if s.Err? {
          return Err(s.error);
        }
        return Ok(Token(curLine, curColumn, TOKEN_STRING, s.value));
      }
      if c0 == '\'' || c0 == '"' {
        var s := ScanShortString();
        if s.Err? {
          return Err(s.error);
        }
        return Ok(Token(curLine, curColumn, TOKEN_STRING, s.value));
      }
      r := ScanWord(c);
    }

    /** A number, a name or a keyword at the start of the unread text, else an unexpected symbol. */
    method ScanWord(ghost c: Cursor) returns (r: Result<Token, LexError>)
      requires LexerSpec.SkipWhiteSpaces(c) == Ok(View()) && |chunk| > 0
      requires FixedToken(chunk).None? && chunk[0] != '[' && chunk[0] != '\'' && chunk[0] != '"'
      modifies this
      ensures match LexerSpec.Scan(c)
              case Ok(p) => r == Ok(p.1) && View() == p.0
              case Err(e) => r == Err(e)
      ensures State().ahead == old(State().ahead)
    {
      var c0 := chunk[0];
      if c0 == '.' || IsDigit(c0) {
        var token := ScanNumber();
        return Ok(Token(curLine, curColumn, TOKEN_NUMBER, token));
      }
      if c0 == '_' || IsLetter(c0) {
        var token := ScanIdentifier();
        if token in KEYWORDS {
          return Ok(Token(curLine, curColumn, KEYWORDS[token], token));
        }
        return Ok(Token(curLine, curColumn, TOKEN_IDENTIFIER, token));
      }
      return Err(UnexpectedSymbol(c0));
    }

    /** Returns the kind of the next token without moving the line and column. */
    method LookAhead() returns (r: Result<int, LexError>)
      modifies this
      ensures match LexerSpec.LookAhead(old(State()))
              case Ok(p) => r == Ok(p.1) && State() == p.0
              case Err(e) => r == Err(e)
    {
      if 0 < nextTokenLine {
        return Ok(nextTokenKind);
      }
      var currentLine := curLine;
      var currentColumn := curColumn;
      var t := NextToken();
      if t.Err? {
        return Err(t.error);
      }
      curLine := currentLine;
      curColumn := currentColumn;
      nextTokenLine := t.value.line;
      nextTokenColumn := t.value.column;
      nextTokenKind := t.value.kind;
      nextToken := t.value.text;
      return Ok(t.value.kind);
    }

    /** Returns the next token's line, column and text, which must be of kind `kind`. */
    method NextTokenOfKind(kind: int) returns (r: Result<(int, int, string), LexError>)
      modifies this
      ensures match LexerSpec.NextTokenOfKind(old(State()), kind)
              case Ok(p) => r == Ok(p.1) && State() == p.0
              case Err(e) => r == Err(e)
    {
      var t := NextToken();
      if t.Err? {
        return Err(t.error);
      }
      if t.value.kind != kind {
        return Err(SyntaxError(t.value.text));
      }
      return Ok((t.value.line, t.value.column, t.value.text));
    }

    /** Returns the next token, which must be an identifier. */
    method NextIdentifier() returns (r: Result<(int, int, string), LexError>)
      modifies this
      ensures match LexerSpec.NextTokenOfKind(old(State()), TOKEN_IDENTIFIER)
              case Ok(p) => r == Ok(p.1) && State() == p.0
              case Err(e) => r == Err(e)
    {
      r := NextTokenOfKind(TOKEN_IDENTIFIER);
    }
  }
}
