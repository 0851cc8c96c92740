/** What the scanner promises about the tokens it produces. */
module ScannerLemmas {
  import opened Wrappers
  import opened Tokens
  import opened Text
  import opened Scanning

  /** Token lines never decrease, and none lies beyond `line`. */
  predicate InSourceOrder(tokens: seq<Token>, line: int) {
    && (forall i, j :: 0 <= i < j < |tokens| ==> tokens[i].line <= tokens[j].line)
    && (forall i :: 0 <= i < |tokens| ==> tokens[i].line <= line)
  }

  predicate NoEof(tokens: seq<Token>) {
    forall i :: 0 <= i < |tokens| ==> tokens[i].tokenType != EOF
  }

  lemma StepKeepsOrder(s: State, o: Outcome)
    requires Extends(s, o) && InSourceOrder(s.tokens, s.line) && NoEof(s.tokens)
    ensures InSourceOrder(o.state.tokens, o.state.line) && NoEof(o.state.tokens)
  {
    var ts := o.state.tokens;
    assert forall i :: 0 <= i < |s.tokens| ==> ts[i] == s.tokens[i];
  }

  /** The main loop only appends tokens other than EOF, each on a line no earlier than the ones before. */
  lemma {:induction false} LexedKeepsOrder(s: State)
    requires InSourceOrder(s.tokens, s.line) && NoEof(s.tokens)
    ensures InSourceOrder(Lexed(s).state.tokens, Lexed(s).state.line) && NoEof(Lexed(s).state.tokens)
    decreases |s.characters| - s.position
  {
    if HasMoreAt(s) {
      var o := Processed(s.(start := s.position));
      StepKeepsOrder(s.(start := s.position), o);
      if o.error.None? {
        LexedKeepsOrder(o.state);
      }
    }
  }

  /**
   * A successful scan from fresh fields yields the tokens in source order
   * followed by exactly one EOF token, whose lexeme is "EOF".
   */
  lemma TokenizeEndsWithOneEof(source: string)
    requires Tokenize(source).Ok?
    ensures var ts := Tokenize(source).value;
      && |ts| >= 1
      && ts[|ts| - 1].tokenType == EOF && ts[|ts| - 1].lexeme == "EOF"
      && NoEof(ts[..|ts| - 1])
      && forall i, j :: 0 <= i < j < |ts| ==> ts[i].line <= ts[j].line
  {
    var s := Initial([]).(characters := source);
    LexedKeepsOrder(s);
    var o := Lexed(s);
    var ts := WithToken(o.state, EOF, Some("EOF")).tokens;
    assert ts[..|ts| - 1] == o.state.tokens;
  }

  /**
   * An operator character yields its token at the column where it starts; a
   * following '=' (or '.' after '?') joins it when a two-character form exists.
   */
  lemma OperatorTokens(s: State)
    requires s.start == s.position && HasMoreAt(s) && IsOperator(s.characters[s.position])
    ensures var c := s.characters[s.position];
      var r := Processed(s);
      && r.error.None? && |r.state.tokens| == |s.tokens| + 1
      && r.state.tokens[|s.tokens|] == Token(OperatorType(c, PeekAt(s)), s.line, s.column,
                                             if Joins(c, PeekAt(s)) then [c, PeekAt(s)] else [c])
  {
    var c := s.characters[s.position];
    assert c != '\n';
    var s1 := Consumed(s);
    assert Processed(s) == OperatorStep(s1, c);
    assert PeekAt(s) == CurrentAt(s1);
    OperatorStepShape(s1, c);
  }

  /** Whether `next` joins the operator `c` into its two-character form. */
  predicate Joins(c: char, next: char) {
    (EqualPair(c).Some? && next == '=') || (c == '?' && next == '.')
  }

  /** The token an operator character forms when `next` follows it. */
  function OperatorType(c: char, next: char): TokenType
    requires IsOperator(c)
  {
    if SingleToken(c).Some? then SingleToken(c).value
    else if EqualPair(c).Some? then (if next == '=' then EqualPair(c).value.1 else EqualPair(c).value.0)
    else if next == '.' then QUESTION_DOT else QUESTION
  }

  lemma OperatorStepShape(s1: State, c: char)
    requires Begun(s1) && s1.start + 1 == s1.position && IsOperator(c) && s1.characters[s1.start] == c
    ensures var r := OperatorStep(s1, c);
      var next := CurrentAt(s1);
      && r.error.None? && |r.state.tokens| == |s1.tokens| + 1
      && r.state.tokens[|s1.tokens|] == Token(OperatorType(c, next), s1.line, s1.column - 1,
                                              if Joins(c, next) then [c, next] else [c])
  {
    var next := CurrentAt(s1);
    OperatorKinds(c);
    if Joins(c, next) {
      JoinedLexeme(s1, c);
    } else {
      assert s1.characters[s1.start..s1.start + 1] == [c];
    }
  }

  /** The three kinds of operator characters do not overlap. */
  lemma OperatorKinds(c: char)
    ensures SingleToken(c).Some? ==> EqualPair(c).None? && c != '?'
    ensures EqualPair(c).Some? ==> c != '?'
  {
  }

  lemma JoinedLexeme(s1: State, c: char)
    requires Begun(s1) && s1.start + 1 == s1.position && s1.characters[s1.start] == c && HasMoreAt(s1)
    ensures s1.characters[s1.start..s1.start + 2] == [c, CurrentAt(s1)]
  {
  }

  function AllDigits(t: string): bool {
    forall i :: 0 <= i < |t| ==> IsDigit(t[i])
  }

  /** A run of digits, optionally a dot and at least one more digit. */
  predicate IsNumberLexeme(t: string) {
    || (|t| > 0 && AllDigits(t))
    || exists k :: 0 < k < |t| - 1 && t[k] == '.' && AllDigits(t[..k]) && AllDigits(t[k + 1..])
  }

  /**
   * A digit starts a NUMBER token whose lexeme is a number and is the longest
   * one there: no digit follows it, and a dot follows the integer part only
   * when no digit comes after the dot.
   */
  lemma NumberTokens(s: State)
    requires s.start == s.position && HasMoreAt(s) && IsDigit(s.characters[s.position])
    ensures var r := Processed(s);
      && r.error.None? && |r.state.tokens| == |s.tokens| + 1
      && s.position < r.state.position <= |s.characters|
      && var lexeme := s.characters[s.position..r.state.position];
      && r.state.tokens[|s.tokens|] == Token(NUMBER, s.line, s.column, lexeme)
      && IsNumberLexeme(lexeme)
      && !IsDigit(CurrentAt(r.state))
      && ('.' !in lexeme ==> !(CurrentAt(r.state) == '.' && IsDigit(PeekAt(r.state))))
  {
    var c := s.characters[s.position];
    assert !IsOperator(c) && c != '/' && c != '"' && !IsWhitespace(c);
    assert Processed(s) == NumberStep(Consumed(s));
    NumberStepShape(Consumed(s));
  }

  lemma NumberStepShape(s1: State)
    requires Begun(s1) && s1.start + 1 == s1.position && IsDigit(s1.characters[s1.start])
    ensures var r := NumberStep(s1);
      && r.error.None? && |r.state.tokens| == |s1.tokens| + 1
      && s1.start < r.state.position <= |s1.characters|
      && var lexeme := s1.characters[s1.start..r.state.position];
      && r.state.tokens[|s1.tokens|] == Token(NUMBER, s1.line, s1.column - 1, lexeme)
      && IsNumberLexeme(lexeme)
      && !IsDigit(CurrentAt(r.state))
      && ('.' !in lexeme ==> !(CurrentAt(r.state) == '.' && IsDigit(PeekAt(r.state))))
  {
    NumberEndShape(s1);
  }

  /** The cursor stops after a number lexeme that no digit, and no dot with a digit after it, continues. */
  lemma NumberEndShape(s1: State)
    requires Begun(s1) && s1.start + 1 == s1.position && IsDigit(s1.characters[s1.start])
    ensures var s2 := NumberEnd(s1);
      && var lexeme := s1.characters[s1.start..s2.position];
      && IsNumberLexeme(lexeme)
      && !IsDigit(CurrentAt(s2))
      && ('.' !in lexeme ==> !(CurrentAt(s2) == '.' && IsDigit(PeekAt(s2))))
  {
    var cs := s1.characters;
    var from := s1.start;
    var s2 := DigitRun(s1);
    DigitsBetween(cs, from, s2.position);
    if CurrentAt(s2) == '.' && IsDigit(PeekAt(s2)) {
      var s3 := DigitRun(Consumed(s2));
      DigitsBetween(cs, s2.position + 1, s3.position);
      FractionLexeme(cs, from, s2.position, s3.position);
    } else {
      assert '.' !in cs[from..s2.position] by {
        assert forall i :: 0 <= i < |cs[from..s2.position]| ==> IsDigit(cs[from..s2.position][i]);
      }
    }
  }

  /** The characters between two positions are all digits. */
  lemma DigitsBetween(cs: seq<char>, from: nat, to: nat)
    requires from <= to <= |cs|
    requires forall i :: from <= i < to ==> IsDigit(cs[i])
    ensures AllDigits(cs[from..to])
  {
    forall i | 0 <= i < to - from ensures IsDigit(cs[from..to][i]) {
      assert cs[from..to][i] == cs[from + i];
    }
  }

  /** Digits, a dot and more digits form a number lexeme that has a dot. */
  lemma FractionLexeme(cs: seq<char>, from: nat, dot: nat, to: nat)
    requires from < dot < to <= |cs| && dot + 1 < to && cs[dot] == '.'
    requires AllDigits(cs[from..dot]) && AllDigits(cs[dot + 1..to])
    ensures IsNumberLexeme(cs[from..to]) && '.' in cs[from..to]
  {
    var lexeme := cs[from..to];
    var k := dot - from;
    assert lexeme[k] == '.';
    assert lexeme[..k] == cs[from..dot];
    assert lexeme[k + 1..] == cs[dot + 1..to];
  }

  predicate IsIdentifierLexeme(t: string) {
    |t| > 0 && IsAlpha(t[0]) && forall i :: 0 < i < |t| ==> IsIdentifierPart(t[i])
  }

  /**
   * A letter starts a word that runs over letters, digits and underscores.
   * Its token keeps the source text as lexeme; its type is the keyword whose
   * lower-case spelling the word has, or else IDENTIFIER.
   */
  lemma WordTokens(s: State)
    requires s.start == s.position && HasMoreAt(s) && IsAlpha(s.characters[s.position])
    ensures var r := Processed(s);
      && r.error.None? && |r.state.tokens| == |s.tokens| + 1
      && s.position < r.state.position <= |s.characters|
      && var lexeme := s.characters[s.position..r.state.position];
      && IsIdentifierLexeme(lexeme)
      && !IsIdentifierPart(CurrentAt(r.state))
      && r.state.tokens[|s.tokens|] == Token(KeywordOrIdentifier(lexeme), s.line, s.column, lexeme)
  {
    var c := s.characters[s.position];
    assert !IsOperator(c) && c != '/' && c != '"' && !IsWhitespace(c) && !IsDigit(c);
    assert Processed(s) == WordStep(Consumed(s));
    WordStepShape(Consumed(s));
  }

  lemma WordStepShape(s1: State)
    requires Begun(s1) && s1.start + 1 == s1.position && IsAlpha(s1.characters[s1.start])
    ensures var r := WordStep(s1);
      && r.error.None? && |r.state.tokens| == |s1.tokens| + 1
      && s1.start < r.state.position <= |s1.characters|
      && var lexeme := s1.characters[s1.start..r.state.position];
      && IsIdentifierLexeme(lexeme)
      && !IsIdentifierPart(CurrentAt(r.state))
      && r.state.tokens[|s1.tokens|] == Token(KeywordOrIdentifier(lexeme), s1.line, s1.column - 1, lexeme)
  {
    var s2 := IdentifierRun(s1);
    WordLexeme(s1.characters, s1.start, s2.position);
  }

  /** A letter followed by identifier characters is an identifier lexeme. */
  lemma WordLexeme(cs: seq<char>, from: nat, to: nat)
    requires from < to <= |cs| && IsAlpha(cs[from])
    requires forall i :: from < i < to ==> IsIdentifierPart(cs[i])
    ensures IsIdentifierLexeme(cs[from..to])
  {
    var lexeme := cs[from..to];
    assert lexeme[0] == cs[from];
    forall i | 0 < i < |lexeme| ensures IsIdentifierPart(lexeme[i]) {
      assert lexeme[i] == cs[from + i];
    }
  }

  /** Words that differ only in letter case scan to the same keyword or both to IDENTIFIER. */
  lemma KeywordsIgnoreCase(a: string, b: string)
    requires ToLower(a) == ToLower(b)
    ensures KeywordOrIdentifier(a) == KeywordOrIdentifier(b)
  {
  }

  /**
   * The content of a string literal whose body starts `raw`: a backslash
   * followed by an escape character stands for the escaped character, any
   * other '"' closes the literal. The content and the number of raw
   * characters before the closing quote, or None when the text ends first.
   */
  function Unescaped(raw: seq<char>): Option<(string, nat)>
    decreases |raw|
  {
    if raw == [] then None
    else if raw[0] == '"' then Some(([], 0))
    else if raw[0] == '\\' && |raw| >= 2 && raw[1] in Escapes then
      match Unescaped(raw[2..])
      case None => None
      case Some(body) => Some(([Escapes[raw[1]]] + body.0, body.1 + 2))
    else
      match Unescaped(raw[1..])
      case None => None
      case Some(body) => Some(([raw[0]] + body.0, body.1 + 1))
  }

  /**
   * r is where the string-body loop from s stops: the text it has passed
   * is the unescaped content, and it stops on the closing quote, or at the
   * end of the input when there is none.
   */
  ghost predicate UnescapesTo(s: State, r: State)
    requires s.position <= |s.characters|
  {
    var raw := s.characters[s.position..];
    && (Unescaped(raw).None? ==> !HasMoreAt(r))
    && (Unescaped(raw).Some? ==>
          && Unescaped(raw).value.1 < |raw| && raw[Unescaped(raw).value.1] == '"'
          && r.characters == s.characters[..s.position] + Unescaped(raw).value.0 + raw[Unescaped(raw).value.1..]
          && r.position == s.position + |Unescaped(raw).value.0|)
  }

  /** The string-body loop rewrites the characters in place into the unescaped content. */
  lemma {:induction false} StringBodyUnescapes(s: State)
    requires s.position <= |s.characters|
    ensures UnescapesTo(s, StringBody(s))
    decreases |s.characters| - s.position
  {
    if CurrentAt(s) != '"' && HasMoreAt(s) {
      BodyStepFacts(s);
      StringBodyUnescapes(BodyStep(s));
      UnescapesStep(s);
    } else if HasMoreAt(s) {
      assert s.characters[s.position..][0] == '"';
    }
  }

  /** One round of the loop: what holds from the next position holds from this one. */
  lemma UnescapesStep(s: State)
    requires HasMoreAt(s) && CurrentAt(s) != '"'
    requires BodyStep(s).position <= |BodyStep(s).characters|
    requires UnescapesTo(BodyStep(s), StringBody(BodyStep(s)))
    ensures UnescapesTo(s, StringBody(s))
  {
    BodyStepFacts(s);
    var s2 := BodyStep(s);
    if Unescaped(s2.characters[s2.position..]).Some? {
      UnescapesClosed(s, StringBody(s2));
    }
  }

  /** UnescapesStep when the rest of the text holds a closing quote, for the loop's result r. */
  lemma UnescapesClosed(s: State, r: State)
    requires HasMoreAt(s) && CurrentAt(s) != '"'
    requires BodyStep(s).position <= |BodyStep(s).characters|
    requires UnescapesTo(BodyStep(s), r)
    requires Unescaped(BodyStep(s).characters[BodyStep(s).position..]).Some?
    ensures UnescapesTo(s, r)
  {
    BodyStepFacts(s);
    var s2 := BodyStep(s);
    var raw := s.characters[s.position..];
    var body := Unescaped(s2.characters[s2.position..]).value;
    ClosedText(s.characters[..s.position], BodyFirst(s), body.0, raw, BodyUsed(s), body.1, r.characters);
  }

  /** The text of a closed string body, regrouped around the first character of the round. */
  lemma ClosedText(prefix: seq<char>, first: char, body: string, raw: seq<char>, used: nat, k: nat, text: seq<char>)
    requires used <= |raw| && k < |raw| - used && raw[used..][k] == '"'
    requires text == prefix + [first] + body + raw[used..][k..]
    ensures k + used < |raw| && raw[k + used] == '"'
    ensures text == prefix + ([first] + body) + raw[k + used..]
  {
    assert raw[used..][k..] == raw[k + used..];
  }

  /** Whether the string-body loop is at an escape it splices. */
  predicate AtEscape(s: State) {
    CurrentAt(s) == '\\' && PeekAt(s) in Escapes
  }

  /** The character the loop consumes in one round, after any splice. */
  function BodyFirst(s: State): char
    requires HasMoreAt(s)
  {
    if AtEscape(s) then Escapes[s.characters[s.position + 1]] else s.characters[s.position]
  }

  /** How many source characters that round stands for. */
  function BodyUsed(s: State): nat {
    if AtEscape(s) then 2 else 1
  }

  /** The fields after one round of the string-body loop. */
  function BodyStep(s: State): State
    requires HasMoreAt(s)
  {
    Consumed(if AtEscape(s) then Spliced(s) else s)
  }

  lemma BodyStepFacts(s: State)
    requires HasMoreAt(s) && CurrentAt(s) != '"'
    ensures var raw := s.characters[s.position..];
      var s2 := BodyStep(s);
      && s2.position <= |s2.characters|
      && s2.characters[s2.position..] == raw[BodyUsed(s)..]
      && s2.characters[..s2.position] == s.characters[..s.position] + [BodyFirst(s)]
      && StringBody(s) == StringBody(s2)
      && (Unescaped(raw).Some? <==> Unescaped(raw[BodyUsed(s)..]).Some?)
      && (Unescaped(raw).Some? ==>
            Unescaped(raw).value == ([BodyFirst(s)] + Unescaped(raw[BodyUsed(s)..]).value.0,
                                     Unescaped(raw[BodyUsed(s)..]).value.1 + BodyUsed(s)))
  {
    BodyStepText(s);
    BodyStepUnescaped(s);
  }

  /** One round of the loop moves the cursor past the character it writes in place of what it read. */
  lemma BodyStepText(s: State)
    requires HasMoreAt(s) && CurrentAt(s) != '"'
    ensures var s2 := BodyStep(s);
      && s2.position <= |s2.characters|
      && s2.characters[s2.position..] == s.characters[s.position..][BodyUsed(s)..]
      && s2.characters[..s2.position] == s.characters[..s.position] + [BodyFirst(s)]
      && StringBody(s) == StringBody(s2)
  {
  }

  /** Unescaping the raw text reads the same first character as one round of the loop. */
  lemma BodyStepUnescaped(s: State)
    requires HasMoreAt(s) && CurrentAt(s) != '"'
    ensures var raw := s.characters[s.position..];
      && (Unescaped(raw).Some? <==> Unescaped(raw[BodyUsed(s)..]).Some?)
      && (Unescaped(raw).Some? ==>
            Unescaped(raw).value == ([BodyFirst(s)] + Unescaped(raw[BodyUsed(s)..]).value.0,
                                     Unescaped(raw[BodyUsed(s)..]).value.1 + BodyUsed(s)))
  {
    var raw := s.characters[s.position..];
    assert raw[0] == s.characters[s.position];
    if AtEscape(s) {
      assert raw[1] == s.characters[s.position + 1];
    }
  }

  lemma Regroup<T>(a: seq<T>, b: seq<T>, c: seq<T>, d: seq<T>)
    ensures a + b + c + d == a + (b + c) + d
  {
  }

  /**
   * A '"' starts a STRING token whose lexeme is the unescaped content without
   * the quotes; when the input ends before a closing quote the scanner raises
   * "Unterminated string".
   */
  lemma StringTokens(s: State)
    requires s.start == s.position && HasMoreAt(s) && s.characters[s.position] == '"'
    ensures var raw := s.characters[s.position + 1..];
      var r := Processed(s);
      && (Unescaped(raw).None? ==> r.error.Some? && r.error.value.message == UnterminatedString)
      && (Unescaped(raw).Some? ==>
            && r.error.None? && |r.state.tokens| == |s.tokens| + 1
            && r.state.tokens[|s.tokens|].tokenType == STRING
            && r.state.tokens[|s.tokens|].lexeme == Unescaped(raw).value.0)
  {
    var s1 := Consumed(s);
    assert Processed(s) == StringStep(s1);
    assert s.characters[s.position + 1..] == s1.characters[s1.position..];
    StringStepShape(s1);
  }

  lemma StringStepShape(s1: State)
    requires Begun(s1) && s1.start + 1 == s1.position
    ensures var raw := s1.characters[s1.position..];
      var r := StringStep(s1);
      && (Unescaped(raw).None? ==> r.error.Some? && r.error.value.message == UnterminatedString)
      && (Unescaped(raw).Some? ==>
            && r.error.None? && |r.state.tokens| == |s1.tokens| + 1
            && r.state.tokens[|s1.tokens|].tokenType == STRING
            && r.state.tokens[|s1.tokens|].lexeme == Unescaped(raw).value.0)
  {
    StringBodyUnescapes(s1);
    var raw := s1.characters[s1.position..];
    var s2 := StringBody(s1);
    if Unescaped(raw).Some? {
      var body := Unescaped(raw).value;
      var prefix := s1.characters[..s1.position];
      assert s2.characters == prefix + body.0 + raw[body.1..];
      assert s2.characters[s2.position] == '"' by {
        assert s2.characters[s2.position] == raw[body.1..][0];
      }
      assert s2.characters[s1.position..s2.position] == body.0;
    }
  }

  /** Whitespace and `//` comments with a character after the `//` add no token and raise nothing. */
  lemma SkipsWithoutTokens(s: State)
    requires s.start == s.position && HasMoreAt(s)
    requires IsWhitespace(s.characters[s.position])
      || (s.characters[s.position] == '/' && PeekAt(s) == '/' && s.position + 2 < |s.characters|)
    ensures Processed(s).error.None? && Processed(s).state.tokens == s.tokens
  {
    var c := s.characters[s.position];
    var s1 := Consumed(s);
    if IsWhitespace(c) {
      assert !IsOperator(c) && c != '/' && c != '"';
      assert Processed(s) == Outcome(s1, None);
    } else {
      assert PeekAt(s) == CurrentAt(s1);
      assert Processed(s) == SlashStep(s1);
    }
  }

  /** A character that starts no token raises "Invalid character" at the column after it. */
  lemma InvalidCharacters(s: State)
    requires s.start == s.position && HasMoreAt(s)
    requires var c := s.characters[s.position];
      !IsOperator(c) && c != '/' && c != '"' && !IsWhitespace(c) && !IsDigit(c) && !IsAlpha(c)
    ensures Processed(s).error == Some(SyntaxError(InvalidCharacter, s.line, s.column + 1))
  {
  }

  /** A block comment whose closing `*` `/` ends the input is still reported unterminated. */
  lemma CommentClosingAtEndIsUnterminated(source: string)
    requires source == "/* a */"
    ensures Tokenize(source).Err?
    ensures Tokenize(source).error.message == UnterminatedComment
  {
    var s := Initial([]).(characters := source);
    var s1 := Consumed(s);
    ClosingAtEndLeavesNothing(s1);
    assert Processed(s) == SlashStep(s1);
    assert Lexed(s).error == SlashStep(s1).error;
  }

  /** After the `/` of "/* a */", the comment loop runs to the end of the input. */
  lemma ClosingAtEndLeavesNothing(s1: State)
    requires s1.characters == "/* a */" && s1.start == 0 && s1.position == 1
    ensures SlashStep(s1).error.Some? && SlashStep(s1).error.value.message == UnterminatedComment
  {
    var p3 := Consumed(Consumed(s1));
    assert p3.position == 3 && CurrentAt(p3) == 'a';
    var p4 := Consumed(p3);
    var p5 := Consumed(p4);
    assert CurrentAt(p5) == '*' && PeekAt(p5) == '/';
    var p7 := Consumed(Consumed(p5));
    assert BlockComment(p5) == p7;
    assert BlockComment(p4) == p7;
    assert BlockComment(p3) == p7;
  }

  /**
   * Two slashes, or a slash and a star, as the whole input: the extra consume
   * after the second character reads past the end, and the scan fails with
   * PHP's TypeError instead of a syntax error.
   */
  lemma CommentOpenerAtEndFails(source: string)
    requires source == "//" || source == "/*"
    ensures Tokenize(source) == Err(HostTypeError(ConsumeReturnedNull))
  {
    var s := Initial([]).(characters := source);
    var s1 := Consumed(s);
    assert Processed(s) == SlashStep(s1);
    assert Matches(s1, source[1]) && !HasMoreAt(Consumed(s1));
  }
}
