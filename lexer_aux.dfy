/**
 * Token kinds, the keyword table and the byte classes used by the Lua lexer.
 * Lexer text is a `string` whose characters stand for the bytes of the Lua
 * source chunk.
 */
module LexerAux {

  // Token kinds, numbered consecutively from 0 in declaration order.
  const TOKEN_EOF: int := 0
  const TOKEN_VARARG: int := 1
  const TOKEN_SEP_SEMI: int := 2
  const TOKEN_SEP_COMMA: int := 3
  const TOKEN_SEP_DOT: int := 4
  const TOKEN_SEP_COLON: int := 5
  const TOKEN_SEP_LABEL: int := 6
  const TOKEN_SEP_LPAREN: int := 7
  const TOKEN_SEP_RPAREN: int := 8
  const TOKEN_SEP_LBRACK: int := 9
  const TOKEN_SEP_RBRACK: int := 10
  const TOKEN_SEP_LCURLY: int := 11
  const TOKEN_SEP_RCURLY: int := 12
  const TOKEN_OP_ASSIGN: int := 13
  const TOKEN_OP_MINUS: int := 14
  const TOKEN_OP_WAVE: int := 15
  const TOKEN_OP_ADD: int := 16
  const TOKEN_OP_MUL: int := 17
  const TOKEN_OP_DIV: int := 18
  const TOKEN_OP_IDIV: int := 19
  const TOKEN_OP_POW: int := 20
  const TOKEN_OP_MOD: int := 21
  const TOKEN_OP_BAND: int := 22
  const TOKEN_OP_BOR: int := 23
  const TOKEN_OP_SHR: int := 24
  const TOKEN_OP_SHL: int := 25
  const TOKEN_OP_CONCAT: int := 26
  const TOKEN_OP_LT: int := 27
  const TOKEN_OP_LE: int := 28
  const TOKEN_OP_GT: int := 29
  const TOKEN_OP_GE: int := 30
  const TOKEN_OP_EQ: int := 31
  const TOKEN_OP_NE: int := 32
  const TOKEN_OP_LEN: int := 33
  const TOKEN_OP_AND: int := 34
  const TOKEN_OP_OR: int := 35
  const TOKEN_OP_NOT: int := 36
  const TOKEN_KW_BREAK: int := 37
  const TOKEN_KW_DO: int := 38
  const TOKEN_KW_ELSE: int := 39
  const TOKEN_KW_ELSEIF: int := 40
  const TOKEN_KW_END: int := 41
  const TOKEN_KW_FALSE: int := 42
  const TOKEN_KW_FOR: int := 43
  const TOKEN_KW_FUNCTION: int := 44
  const TOKEN_KW_GOTO: int := 45
  const TOKEN_KW_IF: int := 46
  const TOKEN_KW_IN: int := 47
  const TOKEN_KW_LOCAL: int := 48
  const TOKEN_KW_NIL: int := 49
  const TOKEN_KW_REPEAT: int := 50
  const TOKEN_KW_RETURN: int := 51
  const TOKEN_KW_THEN: int := 52
  const TOKEN_KW_TRUE: int := 53
  const TOKEN_KW_UNTIL: int := 54
  const TOKEN_KW_WHILE: int := 55
  const TOKEN_IDENTIFIER: int := 56
  const TOKEN_NUMBER: int := 57
  const TOKEN_STRING: int := 58

  // Aliases: unary minus and subtraction share one kind, as do bitwise not and xor.
  const TOKEN_OP_UNM: int := TOKEN_OP_MINUS
  const TOKEN_OP_SUB: int := TOKEN_OP_MINUS
  const TOKEN_OP_BNOT: int := TOKEN_OP_WAVE
  const TOKEN_OP_BXOR: int := TOKEN_OP_WAVE

  /** The reserved words and the token kind each one is scanned as. */
  const KEYWORDS: map<string, int> := map[
    "and" := TOKEN_OP_AND,
    "break" := TOKEN_KW_BREAK,
    "do" := TOKEN_KW_DO,
    "else" := TOKEN_KW_ELSE,
    "elseif" := TOKEN_KW_ELSEIF,
    "end" := TOKEN_KW_END,
    "false" := TOKEN_KW_FALSE,
    "for" := TOKEN_KW_FOR,
    "function" := TOKEN_KW_FUNCTION,
    "goto" := TOKEN_KW_GOTO,
    "if" := TOKEN_KW_IF,
    "in" := TOKEN_KW_IN,
    "local" := TOKEN_KW_LOCAL,
    "nil" := TOKEN_KW_NIL,
    "not" := TOKEN_OP_NOT,
    "or" := TOKEN_OP_OR,
    "repeat" := TOKEN_KW_REPEAT,
    "return" := TOKEN_KW_RETURN,
    "then" := TOKEN_KW_THEN,
    "true" := TOKEN_KW_TRUE,
    "until" := TOKEN_KW_UNTIL,
    "while" := TOKEN_KW_WHILE
  ]

  /** Carriage return or line feed. */
  predicate IsNewLine(c: char) {
    c == '\r' || c == '\n'
  }

  /** Tab, line feed, vertical tab, form feed, carriage return or space. */
  predicate IsWhiteSpace(c: char) {
    c == '\t' || c == '\n' || c == '\U{000B}' || c == '\U{000C}' || c == '\r' || c == ' '
  }

  /** An ASCII decimal digit. */
  predicate IsDigit(c: char) {
    '0' <= c <= '9'
  }

  /** An ASCII letter. */
  predicate IsLetter(c: char) {
    ('a' <= c <= 'z') || ('A' <= c <= 'Z')
  }

  /** Each kind is one more than the kind declared before it, from 0 up to 58. */
  lemma KindsConsecutive()
    ensures TOKEN_EOF == 0 && TOKEN_STRING == 58
    ensures TOKEN_VARARG == TOKEN_EOF + 1 && TOKEN_SEP_SEMI == TOKEN_VARARG + 1 && TOKEN_SEP_COMMA == TOKEN_SEP_SEMI + 1
    ensures TOKEN_SEP_DOT == TOKEN_SEP_COMMA + 1 && TOKEN_SEP_COLON == TOKEN_SEP_DOT + 1 && TOKEN_SEP_LABEL == TOKEN_SEP_COLON + 1
    ensures TOKEN_SEP_LPAREN == TOKEN_SEP_LABEL + 1 && TOKEN_SEP_RPAREN == TOKEN_SEP_LPAREN + 1 && TOKEN_SEP_LBRACK == TOKEN_SEP_RPAREN + 1
    ensures TOKEN_SEP_RBRACK == TOKEN_SEP_LBRACK + 1 && TOKEN_SEP_LCURLY == TOKEN_SEP_RBRACK + 1 && TOKEN_SEP_RCURLY == TOKEN_SEP_LCURLY + 1
    ensures TOKEN_OP_ASSIGN == TOKEN_SEP_RCURLY + 1 && TOKEN_OP_MINUS == TOKEN_OP_ASSIGN + 1 && TOKEN_OP_WAVE == TOKEN_OP_MINUS + 1
    ensures TOKEN_OP_ADD == TOKEN_OP_WAVE + 1 && TOKEN_OP_MUL == TOKEN_OP_ADD + 1 && TOKEN_OP_DIV == TOKEN_OP_MUL + 1
    ensures TOKEN_OP_IDIV == TOKEN_OP_DIV + 1 && TOKEN_OP_POW == TOKEN_OP_IDIV + 1 && TOKEN_OP_MOD == TOKEN_OP_POW + 1
    ensures TOKEN_OP_BAND == TOKEN_OP_MOD + 1 && TOKEN_OP_BOR == TOKEN_OP_BAND + 1 && TOKEN_OP_SHR == TOKEN_OP_BOR + 1
    ensures TOKEN_OP_SHL == TOKEN_OP_SHR + 1 && TOKEN_OP_CONCAT == TOKEN_OP_SHL + 1 && TOKEN_OP_LT == TOKEN_OP_CONCAT + 1
    ensures TOKEN_OP_LE == TOKEN_OP_LT + 1 && TOKEN_OP_GT == TOKEN_OP_LE + 1 && TOKEN_OP_GE == TOKEN_OP_GT + 1
    ensures TOKEN_OP_EQ == TOKEN_OP_GE + 1 && TOKEN_OP_NE == TOKEN_OP_EQ + 1 && TOKEN_OP_LEN == TOKEN_OP_NE + 1
    ensures TOKEN_OP_AND == TOKEN_OP_LEN + 1 && TOKEN_OP_OR == TOKEN_OP_AND + 1 && TOKEN_OP_NOT == TOKEN_OP_OR + 1
    ensures TOKEN_KW_BREAK == TOKEN_OP_NOT + 1 && TOKEN_KW_DO == TOKEN_KW_BREAK + 1 && TOKEN_KW_ELSE == TOKEN_KW_DO + 1
    ensures TOKEN_KW_ELSEIF == TOKEN_KW_ELSE + 1 && TOKEN_KW_END == TOKEN_KW_ELSEIF + 1 && TOKEN_KW_FALSE == TOKEN_KW_END + 1
    ensures TOKEN_KW_FOR == TOKEN_KW_FALSE + 1 && TOKEN_KW_FUNCTION == TOKEN_KW_FOR + 1 && TOKEN_KW_GOTO == TOKEN_KW_FUNCTION + 1
    ensures TOKEN_KW_IF == TOKEN_KW_GOTO + 1 && TOKEN_KW_IN == TOKEN_KW_IF + 1 && TOKEN_KW_LOCAL == TOKEN_KW_IN + 1
    ensures TOKEN_KW_NIL == TOKEN_KW_LOCAL + 1 && TOKEN_KW_REPEAT == TOKEN_KW_NIL + 1 && TOKEN_KW_RETURN == TOKEN_KW_REPEAT + 1
    ensures TOKEN_KW_THEN == TOKEN_KW_RETURN + 1 && TOKEN_KW_TRUE == TOKEN_KW_THEN + 1 && TOKEN_KW_UNTIL == TOKEN_KW_TRUE + 1
    ensures TOKEN_KW_WHILE == TOKEN_KW_UNTIL + 1 && TOKEN_IDENTIFIER == TOKEN_KW_WHILE + 1 && TOKEN_NUMBER == TOKEN_IDENTIFIER + 1
    ensures TOKEN_STRING == TOKEN_NUMBER + 1
  {
  }

  /** The aliases name the same kinds as minus and wave. */
  lemma KindAliases()
    ensures TOKEN_OP_UNM == TOKEN_OP_SUB == TOKEN_OP_MINUS
    ensures TOKEN_OP_BNOT == TOKEN_OP_BXOR == TOKEN_OP_WAVE
  {
  }

  /** The table holds exactly the 22 reserved words of Lua. */
  lemma KeywordWords()
    ensures KEYWORDS.Keys == {
      "and", "break", "do", "else", "elseif", "end", "false", "for", "function", "goto", "if",
      "in", "local", "nil", "not", "or", "repeat", "return", "then", "true", "until", "while"}
  {
  }

  /** `and`, `or` and `not` are operators; every other reserved word has a keyword kind. */
  lemma KeywordKinds()
    ensures KEYWORDS["and"] == TOKEN_OP_AND
    ensures KEYWORDS["or"] == TOKEN_OP_OR
    ensures KEYWORDS["not"] == TOKEN_OP_NOT
    ensures forall w | w in KEYWORDS && w != "and" && w != "or" && w != "not" ::
              TOKEN_KW_BREAK <= KEYWORDS[w] <= TOKEN_KW_WHILE
  {
  }

  /** Distinct reserved words are scanned as distinct kinds. */
  lemma KeywordsDistinct()
    ensures forall w, v | w in KEYWORDS && v in KEYWORDS && KEYWORDS[w] == KEYWORDS[v] :: w == v
  {
  }

  /** Every newline byte is also a whitespace byte. */
  lemma NewLineIsWhiteSpace(c: char)
    ensures IsNewLine(c) ==> IsWhiteSpace(c)
  {
  }

  /** The newline and whitespace classes as sets; digits, letters and whitespace are disjoint. */
  lemma ByteClasses(c: char)
    ensures IsNewLine(c) <==> c in {'\r', '\n'}
    ensures IsWhiteSpace(c) <==> c in {'\t', '\n', '\U{000B}', '\U{000C}', '\r', ' '}
    ensures !(IsDigit(c) && IsLetter(c)) && !(IsWhiteSpace(c) && (IsDigit(c) || IsLetter(c)))
  {
  }
}
