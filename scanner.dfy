/**
 * The scanner: turns the characters of a source text into tokens.
 *
 * The specification is a set of functions over `State`, a snapshot of the
 * scanner's six fields; the class `Scanner` keeps those fields and its methods
 * advance them in place, each proved to take the step its specification
 * function describes.
 */
module Scanning {
  import opened Wrappers
  import opened Tokens
  import opened Text

  /**
   * What a scan can raise: a positioned SyntaxError, or the PHP TypeError
   * that `consume(): string` throws when it reads past the last character
   * (the read gives null, which the declared return type rejects).
   */
  datatype ScanError =
    | SyntaxError(message: string, line: int, column: int)
    | HostTypeError(message: string)

  /** The TypeError message of a `consume` past the end of the input. */
  const ConsumeReturnedNull := "Scanner::consume(): Return value must be of type string, null returned"

  /** The scanner's fields at one moment. */
  datatype State = State(characters: seq<char>, line: int, column: int, start: nat, position: nat, tokens: seq<Token>)

  /** The fields after one step: the new values, and the error the step raised, if any. */
  datatype Outcome = Outcome(state: State, error: Option<ScanError>)

  const Keywords: map<string, TokenType> := map[
    "and" := AND, "class" := NEW_CLASS, "else" := ELSE, "false" := FALSE,
    "for" := FOR, "fun" := FUN, "if" := IF, "nil" := NIL,
    "or" := OR, "return" := RETURN, "super" := SUPER, "this" := THIS,
    "true" := TRUE, "typeof" := TYPEOF, "var" := VAR, "while" := WHILE]

  /** The messages of the syntax errors the scanner raises. */
  const UnterminatedComment := "Unterminated comment"
  const UnterminatedString := "Unterminated string"
  const InvalidCharacter := "Invalid character"

  /** The character after a backslash that forms an escape, and what the pair stands for. */
  const Escapes: map<char, char> := map['"' := '"', '\\' := '\\', 'n' := '\n', 'r' := '\r', 't' := '\t']

  /** The token a character always forms on its own, if it is one of those. */
  function SingleToken(c: char): (r: Option<TokenType>)
    ensures r.Some? ==> r.value != EOF
  {
    match c
    case '(' => Some(LEFT_PAREN)
    case ')' => Some(RIGHT_PAREN)
    case '{' => Some(LEFT_BRACE)
    case '}' => Some(RIGHT_BRACE)
    case '[' => Some(LEFT_BRACKET)
    case ']' => Some(RIGHT_BRACKET)
    case ',' => Some(COMMA)
    case '.' => Some(DOT)
    case ';' => Some(SEMICOLON)
    case ':' => Some(COLON)
    case _ => None
  }

  /** For a character that forms one token alone and another with a following '=': both tokens. */
  function EqualPair(c: char): (r: Option<(TokenType, TokenType)>)
    ensures r.Some? ==> r.value.0 != EOF && r.value.1 != EOF
  {
    match c
    case '%' => Some((MODULO, MODULO_EQUAL))
    case '-' => Some((MINUS, MINUS_EQUAL))
    case '+' => Some((PLUS, PLUS_EQUAL))
    case '*' => Some((STAR, STAR_EQUAL))
    case '!' => Some((BANG, BANG_EQUAL))
    case '=' => Some((EQUAL, EQUAL_EQUAL))
    case '<' => Some((LESS, LESS_EQUAL))
    case '>' => Some((GREATER, GREATER_EQUAL))
    case _ => None
  }

  predicate IsOperator(c: char) {
    SingleToken(c).Some? || EqualPair(c).Some? || c == '?'
  }

  predicate IsNewline(c: char) {
    c == '\n'
  }

  predicate IsWhitespace(c: char) {
    c == ' ' || c == '\r' || c == '\t' || c == '\n'
  }

  /** The fields a scanner starts with and returns to after a successful scan. */
  function Initial(characters: seq<char>): State {
    State(characters, 1, 1, 0, 0, [])
  }

  predicate HasMoreAt(s: State) {
    s.position < |s.characters|
  }

  /** The character under the cursor, or NUL past the end. */
  function CurrentAt(s: State): char {
    if HasMoreAt(s) then s.characters[s.position] else '\0'
  }

  /** The character after the cursor, or NUL past the end. */
  function PeekAt(s: State): char {
    if s.position + 1 < |s.characters| then s.characters[s.position + 1] else '\0'
  }

  /** consume: the cursor moves one character on; a newline starts the next line at column 1. */
  function Consumed(s: State): (r: State)
    ensures r.position == s.position + 1
    ensures r.characters == s.characters && r.start == s.start && r.tokens == s.tokens
    ensures CurrentAt(s) == '\n' ==> r.line == s.line + 1 && r.column == 1
    ensures CurrentAt(s) != '\n' ==> r.line == s.line && r.column == s.column + 1
  {
    if HasMoreAt(s) && s.characters[s.position] == '\n' then
      s.(position := s.position + 1, line := s.line + 1, column := 1)
    else
      s.(position := s.position + 1, column := s.column + 1)
  }

  /** match: whether the current character is `expected` (it is then consumed). */
  predicate Matches(s: State, expected: char) {
    HasMoreAt(s) && CurrentAt(s) == expected
  }

  function AfterMatch(s: State, expected: char): State {
    if Matches(s, expected) then Consumed(s) else s
  }

  /** getSubstring: the characters in [from, to). */
  function Substring(characters: seq<char>, from: nat, to: nat): string
    requires from <= to <= |characters|
  {
    characters[from..to]
  }

  /** addToken: appends a token at the current line; its column is the current column less the characters it spans. */
  function WithToken(s: State, tokenType: TokenType, lexeme: Option<string>): (r: State)
    requires lexeme.None? ==> s.start <= s.position <= |s.characters|
    ensures |r.tokens| == |s.tokens| + 1 && r.tokens[..|s.tokens|] == s.tokens
    ensures r.tokens[|s.tokens|].tokenType == tokenType
    ensures r.tokens[|s.tokens|].column == s.column - (s.position - s.start)
    ensures lexeme.None? ==> r.tokens[|s.tokens|].lexeme == s.characters[s.start..s.position]
    ensures r.(tokens := s.tokens) == s
  {
    var text := if lexeme.Some? then lexeme.value else Substring(s.characters, s.start, s.position);
    s.(tokens := s.tokens + [Token(tokenType, s.line, s.column - (s.position - s.start), text)])
  }

  /** The fields agree except for the cursor, line and column. */
  predicate SameText(s: State, r: State) {
    r.characters == s.characters && r.start == s.start && r.tokens == s.tokens
  }

  /** The digits loop: consumes the longest run of digits under the cursor. */
  function DigitRun(s: State): (r: State)
    decreases |s.characters| - s.position
    ensures SameText(s, r) && s.position <= r.position
    ensures s.position <= |s.characters| ==> r.position <= |r.characters|
    ensures forall i :: s.position <= i < r.position ==> i < |s.characters| && IsDigit(s.characters[i])
    ensures !IsDigit(CurrentAt(r))
    ensures r.line == s.line && r.column == s.column + (r.position - s.position)
  {
    if IsDigit(CurrentAt(s)) then DigitRun(Consumed(s)) else s
  }

  predicate IsIdentifierPart(c: char) {
    IsAlnum(c) || c == '_'
  }

  /** The identifier loop: consumes the longest run of letters, digits and underscores. */
  function IdentifierRun(s: State): (r: State)
    decreases |s.characters| - s.position
    ensures SameText(s, r) && s.position <= r.position
    ensures s.position <= |s.characters| ==> r.position <= |r.characters|
    ensures forall i :: s.position <= i < r.position ==> i < |s.characters| && IsIdentifierPart(s.characters[i])
    ensures !IsIdentifierPart(CurrentAt(r))
    ensures r.line == s.line && r.column == s.column + (r.position - s.position)
  {
    if IsIdentifierPart(CurrentAt(s)) then IdentifierRun(Consumed(s)) else s
  }

  /** The `//` comment loop: consumes up to, not including, the next newline or the end. */
  function LineComment(s: State): (r: State)
    decreases |s.characters| - s.position
    ensures SameText(s, r) && s.position <= r.position
    ensures s.position <= |s.characters| ==> r.position <= |r.characters|
    ensures forall i :: s.position <= i < r.position ==> i < |s.characters| && !IsNewline(s.characters[i])
    ensures !HasMoreAt(r) || CurrentAt(r) == '\n'
    ensures r.line == s.line
  {
    // The loop condition `current != "\n" && hasMore`, with the conjuncts in the order that makes the index safe.
    if HasMoreAt(s) && !IsNewline(s.characters[s.position]) then
      LineComment(Consumed(s))
    else s
  }

  /**
   * The block comment loop: each round tries to match `*` and then `/`; when
   * that pair is not matched and input remains, one more character is consumed.
   */
  function BlockComment(s: State): (r: State)
    decreases |s.characters| - s.position
    ensures SameText(s, r) && s.position <= r.position && s.line <= r.line
  {
    var s1 := AfterMatch(s, '*');
    if Matches(s, '*') && Matches(s1, '/') then Consumed(s1)
    else if HasMoreAt(s1) then BlockComment(Consumed(s1))
    else s1
  }

  /** array_splice(characters, position, 2, [escaped]): the backslash pair becomes one character. */
  function Spliced(s: State): (r: State)
    requires s.position + 1 < |s.characters| && s.characters[s.position + 1] in Escapes
    ensures |r.characters| == |s.characters| - 1
  {
    s.(characters := s.characters[..s.position] + [Escapes[s.characters[s.position + 1]]] + s.characters[s.position + 2..])
  }

  /** The string-body loop: splices escapes in place and consumes up to the closing quote or the end. */
  function StringBody(s: State): (r: State)
    requires s.position <= |s.characters|
    decreases |s.characters| - s.position
    ensures r.start == s.start && r.tokens == s.tokens && s.position <= r.position <= |r.characters|
    ensures s.line <= r.line
    ensures |r.characters| - r.position <= |s.characters| - s.position
    ensures !HasMoreAt(r) || CurrentAt(r) == '"'
    ensures r.characters[..s.position] == s.characters[..s.position]
  {
    if CurrentAt(s) != '"' && HasMoreAt(s) then
      var s1 := if CurrentAt(s) == '\\' && PeekAt(s) in Escapes then Spliced(s) else s;
      StringBody(Consumed(s1))
    else s
  }

  /** One round of the string-body loop leaves the rest of the loop's result unchanged. */
  lemma BodyRound(s: State)
    requires s.position < |s.characters| && s.characters[s.position] != '"'
    ensures var s1 := if CurrentAt(s) == '\\' && PeekAt(s) in Escapes then Spliced(s) else s;
      StringBody(s) == StringBody(Consumed(s1))
  {
  }

  /** The keyword a lexeme names, matched case-insensitively, or IDENTIFIER. */
  function KeywordOrIdentifier(lexeme: string): TokenType {
    var lower := ToLower(lexeme);
    if lower in Keywords then Keywords[lower] else IDENTIFIER
  }

  /**
   * What every step of the main loop keeps: `start` stays put, the line does
   * not go back, the remaining input does not grow, and at most one token
   * other than EOF is appended, on the line the step ends on.
   */
  predicate Extends(s: State, r: Outcome) {
    && r.state.start == s.start
    && s.line <= r.state.line
    && (forall i :: |s.tokens| <= i < |r.state.tokens| ==> r.state.tokens[i].line == r.state.line)
    && (r.error.None? ==> |r.state.characters| - r.state.position <= |s.characters| - s.position)
    && |s.tokens| <= |r.state.tokens| <= |s.tokens| + 1
    && r.state.tokens[..|s.tokens|] == s.tokens
    && forall i :: |s.tokens| <= i < |r.state.tokens| ==> r.state.tokens[i].tokenType != EOF
  }

  /** The fields right after process consumed the first character of a token. */
  predicate Begun(s: State) {
    s.start < s.position <= |s.characters|
  }

  /** An operator character `c` was consumed: its one-character token, or the two-character one. */
  function OperatorStep(s: State, c: char): (r: Outcome)
    requires Begun(s) && IsOperator(c)
    ensures Extends(s, r)
  {
    if SingleToken(c).Some? then
      Outcome(WithToken(s, SingleToken(c).value, None), None)
    else if EqualPair(c).Some? then
      var pair := EqualPair(c).value;
      Outcome(WithToken(AfterMatch(s, '='), if Matches(s, '=') then pair.1 else pair.0, None), None)
    else
      Outcome(WithToken(AfterMatch(s, '.'), if Matches(s, '.') then QUESTION_DOT else QUESTION, None), None)
  }

  /**
   * A consume that reads past the last character: PHP still moves the
   * cursor and the column on, then throws the TypeError.
   */
  function ConsumedPastEnd(s: State): (r: Outcome)
    requires !HasMoreAt(s)
    ensures r.error == Some(HostTypeError(ConsumeReturnedNull))
  {
    Outcome(Consumed(s), Some(HostTypeError(ConsumeReturnedNull)))
  }

  /**
   * A `/` was consumed: a line comment, a block comment, `/=` or `/`.  Both
   * comment forms consume one more character after their second one, which
   * fails when the input ends right after two slashes or a slash and a star.
   */
  function SlashStep(s: State): (r: Outcome)
    requires Begun(s)
    ensures Extends(s, r)
  {
    if Matches(s, '/') then
      var s1 := Consumed(s);
      if !HasMoreAt(s1) then ConsumedPastEnd(s1)
      else Outcome(LineComment(Consumed(s1)), None)
    else if Matches(s, '*') then
      BlockCommentStep(s)
    else if Matches(s, '=') then
      Outcome(WithToken(Consumed(s), SLASH_EQUAL, None), None)
    else
      Outcome(WithToken(s, SLASH, None), None)
  }

  /**
   * A slash and a star were read: the comment up to its closing star and
   * slash, or "Unterminated comment" when the input ends first, or the
   * TypeError when nothing follows the star.
   */
  function BlockCommentStep(s: State): (r: Outcome)
    requires Begun(s) && Matches(s, '*')
    ensures Extends(s, r)
  {
    var s0 := Consumed(s);
    if !HasMoreAt(s0) then ConsumedPastEnd(s0)
    else
      var s1 := BlockComment(Consumed(s0));
      if !HasMoreAt(s1) then Outcome(s1, Some(SyntaxError(UnterminatedComment, s1.line, s1.column)))
      else Outcome(s1, None)
  }

  /** A `"` was consumed: the string body, then the closing quote, or "Unterminated string". */
  function StringStep(s: State): (r: Outcome)
    requires Begun(s)
    ensures Extends(s, r)
  {
    StringClose(StringBody(s))
  }

  /** After the string body: the token up to the closing quote, or "Unterminated string" at the end of the input. */
  function StringClose(s1: State): (r: Outcome)
    requires Begun(s1)
    ensures Extends(s1, r)
  {
    if !HasMoreAt(s1) then Outcome(s1, Some(SyntaxError(UnterminatedString, s1.line, s1.column)))
    else
      Outcome(WithToken(Consumed(s1), STRING, Some(Substring(s1.characters, s1.start + 1, s1.position))), None)
  }

  /** A digit was consumed: more digits, then a fraction only when a digit follows the dot. */
  function NumberStep(s: State): (r: Outcome)
    requires Begun(s)
    ensures Extends(s, r)
  {
    var s2 := NumberEnd(s);
    Outcome(WithToken(s2, NUMBER, Some(Substring(s2.characters, s2.start, s2.position))), None)
  }

  /** The cursor after the digits, and after a dot and more digits when a digit follows the dot. */
  function NumberEnd(s: State): (r: State)
    requires Begun(s)
    ensures SameText(s, r) && s.position <= r.position <= |r.characters|
    ensures r.line == s.line && r.column == s.column + (r.position - s.position)
  {
    var s1 := DigitRun(s);
    if CurrentAt(s1) == '.' && IsDigit(PeekAt(s1)) then DigitRun(Consumed(s1)) else s1
  }

  /** A letter was consumed: the rest of the word, then a keyword or an identifier token. */
  function WordStep(s: State): (r: Outcome)
    requires Begun(s)
    ensures Extends(s, r)
  {
    var s1 := IdentifierRun(s);
    var lexeme := Substring(s1.characters, s1.start, s1.position);
    var tokenType := KeywordOrIdentifier(lexeme);
    Outcome(WithToken(s1, tokenType, if tokenType == IDENTIFIER then Some(lexeme) else None), None)
  }

  /**
   * process: scans one token (or skips whitespace or a comment) starting at
   * the current character; `start` marks where the token began.
   */
  function Processed(s: State): (r: Outcome)
    requires s.start == s.position && HasMoreAt(s)
    ensures Extends(s, r)
    ensures r.error.None? ==> |r.state.characters| - r.state.position < |s.characters| - s.position
  {
    var c := s.characters[s.position];
    var s1 := Consumed(s);
    if IsOperator(c) then OperatorStep(s1, c)
    else if c == '/' then SlashStep(s1)
    else if c == '"' then StringStep(s1)
    else if IsWhitespace(c) then Outcome(s1, None)
    else if IsDigit(c) then NumberStep(s1)
    else if IsAlpha(c) then WordStep(s1)
    else Outcome(s1, Some(SyntaxError(InvalidCharacter, s1.line, s1.column)))
  }
  /** The main loop of scan: process tokens until the input is used up or a step raises. */
  function Lexed(s: State): (r: Outcome)
    decreases |s.characters| - s.position
    ensures r.error.None? ==> !HasMoreAt(r.state)
    ensures |s.tokens| <= |r.state.tokens| && r.state.tokens[..|s.tokens|] == s.tokens
  {
    if !HasMoreAt(s) then Outcome(s, None)
    else
      var o := Processed(s.(start := s.position));
      if o.error.Some? then o else Lexed(o.state)
  }

  /** scan, from the given fields over a new source: the tokens followed by EOF, or the first error. */
  function ScanFrom(s: State, source: string): Result<seq<Token>, ScanError> {
    var o := Lexed(s.(characters := source));
    if o.error.Some? then Err(o.error.value) else Ok(WithToken(o.state, EOF, Some("EOF")).tokens)
  }

  /** The tokens of a source text, scanned from fresh fields. */
  function Tokenize(source: string): Result<seq<Token>, ScanError> {
    ScanFrom(Initial([]), source)
  }

  class Scanner {
    var characters: seq<char>
    var line: int
    var column: int
    var start: nat
    var position: nat
    var tokens: seq<Token>

    function Snapshot(): State
      reads this
    {
      State(characters, line, column, start, position, tokens)
    }

    constructor ()
      ensures Snapshot() == Initial([])
    {
      characters, line, column, start, position, tokens := [], 1, 1, 0, 0, [];
    }

    /**
     * Scans `source`. On success the fields are reset; on an error they keep
     * the values they had when the error was raised, and a later scan starts
     * from them.
     */
    method Scan(source: string) returns (r: Result<seq<Token>, ScanError>)
      modifies this
      ensures r == ScanFrom(old(Snapshot()), source)
      ensures r.Ok? ==> Snapshot() == Initial([])
      ensures r.Err? ==> Snapshot() == Lexed(old(Snapshot()).(characters := source)).state
    {
      characters := source;
      while HasMore()
        invariant Lexed(Snapshot()) == Lexed(old(Snapshot()).(characters := source))
        decreases |characters| - position
      {
        start := position;
        var error := Process();
        if error.Some? {
          return Err(error.value);
        }
      }
      AddToken(EOF, Some("EOF"));
      var result := tokens;
      Reset();
      return Ok(result);
    }

    predicate HasMore()
      reads this
    {
      HasMoreAt(Snapshot())
    }

    function Current(): char
      reads this
    {
      CurrentAt(Snapshot())
    }

    function Peek(): char
      reads this
    {
      PeekAt(Snapshot())
    }

    /** The character under the cursor, or None where PHP reads null past the end. */
    method Consume() returns (c: Option<char>)
      modifies this
      ensures Snapshot() == Consumed(old(Snapshot()))
      ensures c == if HasMoreAt(old(Snapshot())) then Some(CurrentAt(old(Snapshot()))) else None
    {
      c := if HasMore() then Some(Current()) else None;
      if HasMore() && characters[position] == '\n' {
        line := line + 1;
        column := 1;
      } else {
        column := column + 1;
      }
      position := position + 1;
    }

    method Match(expected: char) returns (matched: bool)
      modifies this
      ensures matched == Matches(old(Snapshot()), expected)
      ensures Snapshot() == AfterMatch(old(Snapshot()), expected)
    {
      if !HasMore() || Current() != expected {
        return false;
      }
      var _ := Consume();
      return true;
    }

    method AddToken(tokenType: TokenType, lexeme: Option<string>)
      requires lexeme.None? ==> start <= position <= |characters|
      modifies this
      ensures Snapshot() == WithToken(old(Snapshot()), tokenType, lexeme)
    {
      var text := if lexeme.Some? then lexeme.value else GetSubstring(start, position);
      tokens := tokens + [Token(tokenType, line, column - (position - start), text)];
    }

    function GetSubstring(from: nat, to: nat): string
      reads this
      requires from <= to <= |characters|
    {
      Substring(characters, from, to)
    }

    method Reset()
      modifies this
      ensures Snapshot() == Initial([])
    {
      characters, line, column, start, position, tokens := [], 1, 1, 0, 0, [];
    }

    method Process() returns (error: Option<ScanError>)
      requires start == position && HasMore()
      modifies this
      ensures Processed(old(Snapshot())) == Outcome(Snapshot(), error)
    {
      var read := Consume();
      var c := read.value;
      error := None;
      if IsOperator(c) {
        ScanOperator(c);
      } else if c == '/' {
        error := ScanSlash();
      } else if c == '"' {
        error := ScanString();
      } else if IsWhitespace(c) {
      } else if IsDigit(c) {
        ScanNumber();
      } else if IsAlpha(c) {
        ScanWord();
      } else {
        error := Some(SyntaxError(InvalidCharacter, line, column));
      }
    }

    method ScanOperator(c: char)
      requires Begun(Snapshot()) && IsOperator(c)
      modifies this
      ensures OperatorStep(old(Snapshot()), c) == Outcome(Snapshot(), None)
    {
      if SingleToken(c).Some? {
        AddToken(SingleToken(c).value, None);
      } else if EqualPair(c).Some? {
        var pair := EqualPair(c).value;
        var matched := Match('=');
        AddToken(if matched then pair.1 else pair.0, None);
      } else {
        var matched := Match('.');
        AddToken(if matched then QUESTION_DOT else QUESTION, None);
      }
    }

    method ScanSlash() returns (error: Option<ScanError>)
      requires Begun(Snapshot())
      modifies this
      ensures SlashStep(old(Snapshot())) == Outcome(Snapshot(), error)
    {
      error := None;
      var slash := Match('/');
      if slash {
        var read := Consume();
        if read.None? {
          return Some(HostTypeError(ConsumeReturnedNull));
        }
        SkipLineComment();
      } else {
        var star := Match('*');
        if star {
          var read := Consume();
          if read.None? {
            return Some(HostTypeError(ConsumeReturnedNull));
          }
          SkipBlockComment();
          if !HasMore() {
            error := Some(SyntaxError(UnterminatedComment, line, column));
          }
        } else {
          var equal := Match('=');
          AddToken(if equal then SLASH_EQUAL else SLASH, None);
        }
      }
    }

    method ScanString() returns (error: Option<ScanError>)
      requires Begun(Snapshot())
      modifies this
      ensures StringStep(old(Snapshot())) == Outcome(Snapshot(), error)
    {
      ghost var s0 := Snapshot();
      ScanStringBody();
      ghost var s1 := Snapshot();
      error := CloseString();
      assert StringStep(s0) == StringClose(s1);
    }

    /** The closing quote ends the token, whose lexeme is the text between the quotes; at the end of the input it is an error. */
    method CloseString() returns (error: Option<ScanError>)
      requires Begun(Snapshot())
      modifies this
      ensures !old(HasMore()) ==> error == Some(SyntaxError(UnterminatedString, line, column)) && Snapshot() == old(Snapshot())
      ensures old(HasMore()) ==>
                error.None? && Snapshot() == WithToken(Consumed(old(Snapshot())), STRING, Some(Substring(old(characters), old(start) + 1, old(position))))
    {
      if !HasMore() {
        return Some(SyntaxError(UnterminatedString, line, column));
      }
      var lexeme := GetSubstring(start + 1, position);
      var _ := Consume();
      AddToken(STRING, Some(lexeme));
      return None;
    }

    method ScanNumber()
      requires Begun(Snapshot())
      modifies this
      ensures NumberStep(old(Snapshot())) == Outcome(Snapshot(), None)
    {
      ScanDigits();
      if Current() == '.' && IsDigit(Peek()) {
        var _ := Consume();
        ScanDigits();
      }
      AddToken(NUMBER, Some(GetSubstring(start, position)));
    }

    method ScanWord()
      requires Begun(Snapshot())
      modifies this
      ensures WordStep(old(Snapshot())) == Outcome(Snapshot(), None)
    {
      ScanIdentifierTail();
      var lexeme := GetSubstring(start, position);
      var tokenType := KeywordOrIdentifier(lexeme);
      AddToken(tokenType, if tokenType == IDENTIFIER then Some(lexeme) else None);
    }

    method ScanDigits()
      modifies this
      ensures Snapshot() == DigitRun(old(Snapshot()))
    {
      while IsDigit(Current())
        invariant DigitRun(Snapshot()) == DigitRun(old(Snapshot()))
        decreases |characters| - position
      {
        var _ := Consume();
      }
    }

    method ScanIdentifierTail()
      modifies this
      ensures Snapshot() == IdentifierRun(old(Snapshot()))
    {
      while IsIdentifierPart(Current())
        invariant IdentifierRun(Snapshot()) == IdentifierRun(old(Snapshot()))
        decreases |characters| - position
      {
        var _ := Consume();
      }
    }

    method SkipLineComment()
      modifies this
      ensures Snapshot() == LineComment(old(Snapshot()))
    {
      while Current() != '\n' && HasMore()
        invariant LineComment(Snapshot()) == LineComment(old(Snapshot()))
        decreases |characters| - position
      {
        var _ := Consume();
      }
    }

    method SkipBlockComment()
      modifies this
      ensures Snapshot() == BlockComment(old(Snapshot()))
    {
      while true
        invariant BlockComment(Snapshot()) == BlockComment(old(Snapshot()))
        decreases |characters| - position
      {
        var star := Match('*');
        if star {
          var slash := Match('/');
          if slash {
            return;
          }
        }
        if !HasMore() {
          return;
        }
        var _ := Consume();
      }
    }

    /** Replaces the backslash under the cursor and the character after it by the character the pair stands for. */
    method SpliceEscape()
      requires position + 1 < |characters| && characters[position + 1] in Escapes
      modifies this
      ensures Snapshot() == Spliced(old(Snapshot()))
    {
      characters := characters[..position] + [Escapes[characters[position + 1]]] + characters[position + 2..];
    }

    method ScanStringBody()
      requires position <= |characters|
      modifies this
      ensures Snapshot() == StringBody(old(Snapshot()))
    {
      while Current() != '"' && HasMore()
        invariant position <= |characters|
        invariant StringBody(Snapshot()) == StringBody(old(Snapshot()))
        decreases |characters| - position
      {
        ghost var before := Snapshot();
        if Current() == '\\' && Peek() in Escapes {
          SpliceEscape();
        }
        var _ := Consume();
        BodyRound(before);
      }
    }
  }
}
