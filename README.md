# lox-php in Dafny

A model of the core of lox-php, a tree-walking interpreter for the Lox
language written in PHP, with proofs about that model. A Lox program passes
through four stages, and each keeps its own module:

- **Scanner** (`Scanning`) splits the source into tokens: operators,
  numbers, keywords and identifiers (keywords match without regard to
  case), strings with their escapes, and comments. It reports
  `Unterminated string`, `Unterminated comment` and `Invalid character`.
- **Parser** (`Parsing`) is recursive descent. It builds expressions at
  ten precedence levels, desugars `for` into `while`, turns compound
  assignments into a binary expression, and caps parameters and
  arguments at 255.
- **Resolver** (`Resolving`) walks the tree with a stack of scopes. It
  rejects redeclaration, a read of a local in its own initializer, a
  top-level `return`, a value returned from an initializer, `this`
  outside a class, `super` outside a subclass, and a class that
  inherits from itself.
- **Interpreter** (`Interpreting`) evaluates expressions and executes
  statements against a chain of environments. It calls user functions,
  classes (with `init` and bound methods) and the built-in functions
  of literal values: `toString`, the string functions `get` and
  `explode`, and the array closures `count`, `each`, `filter`, `first`,
  `get`, `implode`, `last`, `map`, `max`, `min`, `pop`, `push`,
  `reverse`, `shift`, `slice` and `unshift`.

The Scanner, Parser, Resolver and Interpreter change their state step by
step, so they are Dafny classes with `modifies` frames. Each method is
proved against a specification function:
- the Scanner against `Scanning.Lexed`, `Processed` and the `…Step`
  functions;
- the Resolver against `Resolving.StmtOutcome` and `ExprOutcome`;
- the Parser against the grammar rules of `Syntax` (`ProgramRest`,
  `DeclarationAt`, `ExpressionAt`, …), functions from a token list and a
  position to a tree and the next position, or the first error.

The lemma files state what those functions promise.

**Runtime objects.** Environments, instances and arrays are updated in
place, so they are the classes `Runtime.Env`, `Runtime.LoxInstance` and
`Runtime.LoxArray`.
- PHP's global environment defines in place and returns itself.
- PHP's local environment returns a fresh copy on every `define`.
- Both are modelled by `Env` with the flag `copyOnDefine`.
- A PHP array keeps its integer keys through `filter`, so an array is
  `PhpArrays.PhpArray`: keyed entries plus the next free key.

**The interpreter's state.**
- The interpreter keeps ghost sets of every environment, instance and
  array it has allocated.
- `Interpreter.Valid` says that every value stored anywhere refers only
  to objects in those sets.
- Each evaluation method keeps `Valid` and returns values inside them.

**Values, faults and fuel.**
- Values distinguish Lox literals (`Nil`, `Bool`, `Num`, `Str`, `Arr`)
  from the bare host values PHP code lets through (`Null`, `HostBool`,
  `HostStr`).
- `Num` carries whether PHP holds the number as an integer, so the
  division-by-zero guard can be modelled.
- A PHP error or type error that the interpreter does not turn into a
  Lox error is the fault `HostFailure`.
- Every evaluation takes a `fuel` argument that bounds call depth and
  loop iterations.

## Model

| member | source | states |
|---|---|---|
| Scanning.Scanner.Scan | src/Scanner/Scanner.php:106-122 | scanning is exactly `ScanFrom` on the scanner's state: the tokens lexed from the source followed by one EOF token, after which the state is reset; on a syntax error the state is left where lexing stopped |
| Scanning.Scanner.Reset | src/Scanner/Scanner.php:384-392 | the scanner returns to its initial state: no characters, line 1, column 1, no tokens |
| Scanning.Scanner.Process | src/Scanner/Scanner.php:140-291 | one token's worth of scanning does what `Processed` prescribes for the current character |
| Scanning.Scanner.ScanOperator | src/Scanner/Scanner.php:143-200 | a single- or two-character operator is scanned as `OperatorStep` prescribes |
| Scanning.Scanner.ScanSlash | src/Scanner/Scanner.php:201-228 | a slash starts a line comment, a block comment, `/=` or `/`, as `SlashStep` prescribes; both comment forms consume one more character after their opener, which fails with the host TypeError when the input ends there |
| Scanning.Scanner.ScanString | src/Scanner/Scanner.php:229-252 | a string literal is scanned as `StringStep` prescribes |
| Scanning.Scanner.CloseString | src/Scanner/Scanner.php:242-251 | at end of input the result is "Unterminated string" at the current position with the state unchanged; otherwise the closing quote is consumed and a STRING token is added |
| Scanning.Scanner.ScanNumber | src/Scanner/Scanner.php:260-277 | digits, then a dot and digits only when a digit follows the dot, give a NUMBER token (`NumberStep`) |
| Scanning.Scanner.ScanWord | src/Scanner/Scanner.php:278-285 | letters, digits and underscores give a keyword or an IDENTIFIER token (`WordStep`) |
| Scanning.Scanner.ScanDigits | src/Scanner/Scanner.php:261-263 | the loop stops at the first non-digit (`DigitRun`) |
| Scanning.Scanner.ScanIdentifierTail | src/Scanner/Scanner.php:279-281 | the loop stops at the first character that is not alphanumeric or `_` (`IdentifierRun`) |
| Scanning.Scanner.SkipLineComment | src/Scanner/Scanner.php:207-209 | the comment runs up to a newline or the end of input, on the same line (`LineComment`) |
| Scanning.Scanner.SkipBlockComment | src/Scanner/Scanner.php:216-218 | the comment loop with its double `match` stops as `BlockComment` prescribes |
| Scanning.Scanner.SpliceEscape | src/Scanner/Scanner.php:231-236 | an escape sequence is replaced in place by its one-character meaning (`Spliced`) |
| Scanning.Scanner.ScanStringBody | src/Scanner/Scanner.php:230-240 | the body loop stops at the closing quote or at the end of input (`StringBody`) |
| Scanning.Scanner.Consume | src/Scanner/Scanner.php:298-309 | the state becomes `Consumed`; the result is the character under the cursor, or nothing where PHP reads past the end |
| Scanning.Scanner.Match | src/Scanner/Scanner.php:349-357 | the result is true exactly when more input is left and the current character is the expected one, and only then is it consumed |
| Scanning.Scanner.AddToken | src/Scanner/Scanner.php:319-327 | appends one token at the column where the lexeme began, its lexeme defaulting to the scanned text |
| Scanning.Consumed | src/Scanner/Scanner.php:298-309 | the cursor moves on one; after a newline the line goes up and the column becomes 1, otherwise the column goes up by one; nothing else changes |
| Scanning.ConsumedPastEnd | src/Scanner/Scanner.php:298-300 | consuming past the last character still moves the cursor and column on, and then fails with the TypeError of a string function returning null |
| Scanning.WithToken | src/Scanner/Scanner.php:319-327 | the new token goes last, after the old tokens unchanged, with the start column and the scanned text as lexeme |
| Scanning.DigitRun | src/Scanner/Scanner.php:261-263 | every character passed is a digit and the one it stops on is not |
| Scanning.IdentifierRun | src/Scanner/Scanner.php:279-281 | every character passed is an identifier character and the one it stops on is not |
| Scanning.LineComment | src/Scanner/Scanner.php:207-209 | no newline is passed; it stops at a newline or the end of input |
| Scanning.StringBody | src/Scanner/Scanner.php:230-240 | it stops on a quote or at the end of input, and the text before the string is kept |
| Scanning.Processed | src/Scanner/Scanner.php:140-291 | each step only appends tokens, and a step without error consumes input |
| Scanning.Lexed | src/Scanner/Scanner.php:110-113 | lexing without error uses up the whole input and only appends tokens |
| ScannerLemmas.TokenizeEndsWithOneEof | src/Scanner/Scanner.php:106-122 | a successful scan ends with exactly one EOF token, lexeme "EOF", and token lines never decrease |
| ScannerLemmas.LexedKeepsOrder | src/Scanner/Scanner.php:110-113 | lexing keeps tokens in source-line order and adds no EOF token |
| ScannerLemmas.OperatorTokens | src/Scanner/Scanner.php:143-200 | an operator character gives one token at its own line and column; a following `=` (or `.` after `?`) joins it when a two-character form exists |
| ScannerLemmas.NumberTokens | src/Scanner/Scanner.php:260-277 | a digit starts one NUMBER token whose lexeme is digits with at most one interior dot, and the scan takes every digit and any fraction |
| ScannerLemmas.WordTokens | src/Scanner/Scanner.php:278-285 | a letter starts one token whose lexeme is an identifier, with the keyword-or-identifier type of that lexeme |
| ScannerLemmas.KeywordsIgnoreCase | src/Scanner/Scanner.php:284 | lexemes that agree after lower-casing get the same token type, so `CLASS` is the keyword `class` |
| ScannerLemmas.StringBodyUnescapes | src/Scanner/Scanner.php:95-101 | the string loop rewrites the characters in place into the unescaped content, stopping on the closing quote, or at the end of input when there is none |
| ScannerLemmas.StringTokens | src/Scanner/Scanner.php:229-252 | an unterminated string reports "Unterminated string"; otherwise there is one STRING token whose lexeme is the unescaped content |
| ScannerLemmas.SkipsWithoutTokens | src/Scanner/Scanner.php:253-258 | whitespace is consumed without adding a token or an error |
| ScannerLemmas.InvalidCharacters | src/Scanner/Scanner.php:286-288 | any other character is "Invalid character" at the column after it |
| ScannerLemmas.CommentClosingAtEndIsUnterminated | src/Scanner/Scanner.php:210-222 | the source `/* a */`, whose closing `*/` ends the input, is reported as "Unterminated comment" |
| ScannerLemmas.CommentOpenerAtEndFails | src/Scanner/Scanner.php:201-213 | the sources `//` and `/*` fail with the host TypeError, because the extra consume after the opener reads past the end |
| ScannerLemmas.OperatorKinds | src/Scanner/Scanner.php:143-200 | single-character and `=`-pairing operators are distinct classes, and `?` is in neither |
| Parsing.Parser.Parse | src/Parser/Parser.php:57-67 | parsing from the cursor gives exactly `ProgramRest`: declarations up to the EOF token, or the first error |
| Parsing.Parser.Declaration | src/Parser/Parser.php:74-89 | the outcome and the new cursor are exactly `DeclarationAt` on the tokens |
| Parsing.Parser.ClassDeclaration | src/Parser/Parser.php:97-125 | the outcome and the new cursor are exactly `ClassDeclarationAt` |
| Parsing.Parser.ClassBody | src/Parser/Parser.php:109-114 | the methods up to `}` are exactly `ClassBodyRest` |
| Parsing.Parser.FunctionDeclaration | src/Parser/Parser.php:127-140 | the outcome is exactly `FunctionDeclarationAt` for the kind |
| Parsing.Parser.FunctionBody | src/Parser/Parser.php:142-168 | the outcome is exactly `FunctionBodyAt` for the kind |
| Parsing.Parser.Parameters | src/Parser/Parser.php:146-160 | the parameter list is exactly `ParametersAt` |
| Parsing.Parser.Arguments | src/Parser/Parser.php:691-706 | the argument list is exactly `ArgumentsAt` |
| Parsing.Parser.VariableDeclaration | src/Parser/Parser.php:176-194 | the outcome is exactly `VariableDeclarationAt` |
| Parsing.Parser.Statement | src/Parser/Parser.php:196-221 | the outcome is exactly `StatementAt` |
| Parsing.Parser.IfStatement | src/Parser/Parser.php:223-243 | the outcome is exactly `IfAt` |
| Parsing.Parser.Branches | src/Parser/Parser.php:229-236 | the then-branch and optional else-branch are exactly `BranchesAt` |
| Parsing.Parser.ElseBranch | src/Parser/Parser.php:231-234 | the optional `else` branch is exactly `ElseAt` |
| Parsing.Parser.ReturnStatement | src/Parser/Parser.php:245-262 | the outcome is exactly `ReturnAt` |
| Parsing.Parser.BlockStatement | src/Parser/Parser.php:264-280 | the statements up to `}` are exactly `BlockRest` |
| Parsing.Parser.ExpressionStatement | src/Parser/Parser.php:282-294 | the outcome is exactly `ExpressionStatementAt` |
| Parsing.Parser.WhileStatement | src/Parser/Parser.php:296-310 | the outcome is exactly `WhileAt` |
| Parsing.Parser.ForStatement | src/Parser/Parser.php:312-356 | the outcome is exactly `ForAt` |
| Parsing.Parser.ForBody | src/Parser/Parser.php:338-355 | the body and its desugaring are exactly `ForBodyAt` |
| Parsing.Parser.ForInitializer | src/Parser/Parser.php:316-322 | the initializer is exactly `ForInitializerAt` |
| Parsing.Parser.ExpressionUnless | src/Parser/Parser.php:324-334 | the optional clause is exactly `ExpressionUnlessAt` |
| Parsing.Parser.Expression | src/Parser/Parser.php:493-502 | the outcome is exactly `ExpressionAt` |
| Parsing.Parser.Assignment | src/Parser/Parser.php:504-545 | the outcome is exactly `AssignmentAt` |
| Parsing.Parser.AssignmentTail | src/Parser/Parser.php:507-544 | the assignment operator and value after a target are exactly `AssignmentRest` |
| Parsing.Parser.Or | src/Parser/Parser.php:553-570 | the outcome is exactly `OrAt` |
| Parsing.Parser.And | src/Parser/Parser.php:572-589 | the outcome is exactly `AndAt` |
| Parsing.Parser.Equality | src/Parser/Parser.php:591-605 | the outcome is exactly `EqualityAt` |
| Parsing.Parser.Comparison | src/Parser/Parser.php:607-621 | the outcome is exactly `ComparisonAt` |
| Parsing.Parser.Term | src/Parser/Parser.php:623-637 | the outcome is exactly `TermAt` |
| Parsing.Parser.Factor | src/Parser/Parser.php:639-653 | the outcome is exactly `FactorAt` |
| Parsing.Parser.Typeof | src/Parser/Parser.php:655-668 | the outcome is exactly `TypeofAt` |
| Parsing.Parser.Unary | src/Parser/Parser.php:670-683 | the outcome is exactly `UnaryAt` |
| Parsing.Parser.Call | src/Parser/Parser.php:685-724 | the outcome is exactly `CallAt` |
| Parsing.Parser.CallSuffix | src/Parser/Parser.php:689-720 | one `(…)` or `.name` suffix is exactly `CallSuffixAt`; with neither, nothing is consumed |
| Parsing.Parser.Primary | src/Parser/Parser.php:732-796 | the outcome is exactly `PrimaryAt` |
| Parsing.Parser.SuperRest | src/Parser/Parser.php:754-760 | the outcome is exactly `SuperRestAt` |
| Parsing.Parser.GroupingRest | src/Parser/Parser.php:770-775 | the outcome is exactly `GroupingRestAt` |
| Parsing.Parser.ArrayItems | src/Parser/Parser.php:777-788 | the items up to `]` are exactly `ArrayItemsAt` |
| Parsing.Parser.Match | src/Parser/Parser.php:365-382 | the result is true exactly when the current token is not EOF and has one of the types, and only then is it consumed |
| Parsing.Parser.Consume | src/Parser/Parser.php:437-450 | the outcome is exactly `Expect`: the expected token is consumed and returned; otherwise the error is at the current token and nothing is consumed |
| Parsing.Parser.Advance | src/Parser/Parser.php:419-435 | moves past the current token unless at EOF, and returns the previous token |
| Parsing.Parser.Check | src/Parser/Parser.php:384-398 | true exactly when the current token is not EOF and has the type |
| Parsing.Parser.IsAtEnd | src/Parser/Parser.php:452-460 | at end exactly when the current token is EOF |
| Syntax.Expect | src/Parser/Parser.php:437-450 | succeeds exactly when the token has the type and is not EOF, giving that token and the next position; otherwise the error carries the reason and the token's line and column |
| Syntax.ProgramRest | src/Parser/Parser.php:57-67 | a successful parse ends on the EOF token and every declaration in it is well grouped |
| Syntax.DeclarationAt | src/Parser/Parser.php:74-89 | a declaration consumes at least one token and is well grouped |
| Syntax.ClassDeclarationAt | src/Parser/Parser.php:97-125 | a class declaration consumes tokens and is well grouped |
| Syntax.SuperclassAt | src/Parser/Parser.php:101-105 | the superclass is present exactly after `<`, and is then an identifier |
| Syntax.FunctionDeclarationAt | src/Parser/Parser.php:127-140 | a named function carries the identifier at the cursor as its name and is well grouped |
| Syntax.FunctionBodyAt | src/Parser/Parser.php:142-168 | every parameter of the function is an identifier, and the body is well grouped |
| Syntax.ParametersAt | src/Parser/Parser.php:146-160 | a parameter list holds at most 255 identifiers |
| Syntax.VariableDeclarationAt | src/Parser/Parser.php:176-194 | a `var` declaration names the identifier at the cursor |
| Syntax.InitializerAt | src/Parser/Parser.php:180-183 | the initializer is present exactly after `=` |
| Syntax.ElseAt | src/Parser/Parser.php:231-234 | the else-branch is present exactly after `else` |
| Syntax.BranchesAt | src/Parser/Parser.php:229-236 | the result is an `if` on the given condition |
| Syntax.ReturnAt | src/Parser/Parser.php:245-262 | a `return` carries the keyword token before the cursor, and has no value exactly when `;` follows |
| Syntax.BlockRest | src/Parser/Parser.php:264-280 | a block ends just after a `}` and its statements are well grouped |
| Syntax.ExpressionStatementAt | src/Parser/Parser.php:282-294 | gives an expression statement |
| Syntax.WhileBodyAt | src/Parser/Parser.php:301-303 | gives a `while` on the given condition |
| Syntax.ForInitializerAt | src/Parser/Parser.php:316-322 | the initializer is absent exactly after `;`, a `var` declaration after `var`, and otherwise an expression statement |
| Syntax.ExpressionUnlessAt | src/Parser/Parser.php:324-334 | the clause is absent, and nothing is consumed, exactly when the closing token comes next |
| Syntax.DesugarFor | src/Parser/Parser.php:338-355 | `for` becomes a `while` with `true` for a missing condition and the increment run after the body, inside a block holding the initializer when there is one |
| Syntax.AssignmentRest | src/Parser/Parser.php:507-544 | without an assignment operator at the cursor the target itself is the result, with nothing consumed |
| Syntax.AssignTo | src/Parser/Parser.php:518-541 | a variable target gives an assignment, with `x op= v` becoming `x = x op v`; a property target gives a set; any other target is "Invalid assignment target." at the operator |
| Syntax.CompoundOperator | src/Parser/Parser.php:519-526 | a compound operator maps to its arithmetic operator; every other operator maps to plain `=` |
| Syntax.OrRest | src/Parser/Parser.php:557-563 | without `or` at the cursor the left operand is the result, with nothing consumed |
| Syntax.AndRest | src/Parser/Parser.php:576-582 | without `and` at the cursor the left operand is the result |
| Syntax.EqualityRest | src/Parser/Parser.php:594-598 | without an equality operator the left operand is the result |
| Syntax.ComparisonRest | src/Parser/Parser.php:610-614 | without a comparison operator the left operand is the result |
| Syntax.TermRest | src/Parser/Parser.php:626-630 | without `+` or `-` the left operand is the result |
| Syntax.FactorRest | src/Parser/Parser.php:642-646 | without `*`, `/` or `%` the left operand is the result |
| Syntax.CallSuffixAt | src/Parser/Parser.php:689-720 | a suffix is read exactly when `(` or `.` follows, and it makes a call or a property read on the expression |
| Syntax.ArgumentsRest | src/Parser/Parser.php:691-706 | an argument list holds at most 255 well-grouped arguments, more than were already read |
| Syntax.SuperRestAt | src/Parser/Parser.php:754-760 | succeeds exactly when `.` and an identifier follow, giving a super expression with the keyword and that name |
| Syntax.PrimaryAt | src/Parser/Parser.php:732-796 | a one-token primary is its `Atom`, and a token that starts no primary is "Expression expected." at that token |
| Syntax.Atom | src/Parser/Parser.php:734-768 | `false`, `true`, `nil`, numbers and strings give literals; `this` and identifiers give non-literal primaries |
| Syntax.JoinBinary | src/Parser/Parser.php:591-653 | joining a left operand at least as tight with a strictly tighter right operand keeps the tree well grouped at the operator's level |
| Syntax.OperatorLevels | src/Parser/Parser.php:553-653 | or < and < equality < comparison < term < factor, as the descent orders them |
| SyntaxLemmas.ProductBindsTighterAt | src/Parser/Parser.php:623-653 | the tokens `a + b * c` parse as `a + (b * c)`, ending after `c` |
| SyntaxLemmas.SubtractionGroupsLeftAt | src/Parser/Parser.php:623-637 | the tokens `a - b - c` parse as `(a - b) - c` |
| SyntaxLemmas.CompoundAssignmentAt | src/Parser/Parser.php:504-545 | the tokens `x op= v` parse as `x = x op v`, the operator keeping the compound token's place |
| SyntaxLemmas.ForEverAt | src/Parser/Parser.php:312-356 | `for (;;) body` parses as `while (true) body` |
| SyntaxLemmas.FunDispatch | src/Parser/Parser.php:79-82 | `fun` followed by a name is a function declaration of that name; any other `fun` is parsed as a statement |
| SyntaxLemmas.TooManyParametersAt | src/Parser/Parser.php:146-160 | 256 comma-separated names fail with "Can't have more than 255 parameters." at the 256th |
| SyntaxLemmas.MostParametersAt | src/Parser/Parser.php:146-160 | 255 comma-separated names are accepted, in order |
| SyntaxLemmas.TooManyArgumentsAt | src/Parser/Parser.php:691-706 | 256 comma-separated arguments fail with "Can't have more than 255 arguments." at the 256th |
| SyntaxLemmas.MostArgumentsAt | src/Parser/Parser.php:691-706 | 255 comma-separated one-token arguments are accepted, in order |
| ParserLemmas.GroupingUnique | src/Parser/Parser.php:553-653 | two well-grouped trees that flatten to the same operands and operators are the same tree, so the levels fix the grouping |
| ParserLemmas.RootPosition | src/Parser/Parser.php:591-653 | the root operator of a well-grouped binary tree binds loosest, and every operator to its right binds tighter |
| ParserLemmas.ProductBindsTighter | src/Parser/Parser.php:623-653 | every well-grouped tree whose operands and operators read `a + b * c` is `a + (b * c)`; `SyntaxLemmas.ProductBindsTighterAt` states it for the tree the parser builds |
| ParserLemmas.SubtractionGroupsLeft | src/Parser/Parser.php:623-637 | every well-grouped tree whose operands and operators read `a - b - c` is `(a - b) - c`; `SyntaxLemmas.SubtractionGroupsLeftAt` states it for the tree the parser builds |
| Resolving.Resolver.constructor | src/Resolver/Resolver.php:65-70 | the resolver starts with one empty scope, outside any function and class |
| Resolving.Resolver.ResolveAll | src/Resolver/Resolver.php:85-92 | resolving statements is exactly `StmtsOutcome` on the resolver's state |
| Resolving.Resolver.Resolve | src/Resolver/Resolver.php:290-441 | resolving a statement is exactly `StmtOutcome` |
| Resolving.Resolver.ResolveExpr | src/Resolver/Resolver.php:97-285 | resolving an expression is exactly `ExprOutcome` |
| Resolving.Resolver.ResolveExprs | src/Resolver/Resolver.php:131-141 | resolving arguments and array items is exactly `ExprsOutcome` |
| Resolving.Resolver.ResolveReturn | src/Resolver/Resolver.php:390-411 | a `return` resolves as `StmtOutcome` prescribes |
| Resolving.Resolver.ResolveClass | src/Resolver/Resolver.php:302-344 | a class resolves as `ClassOutcome`: the name is declared, the `super` and `this` scopes are pushed, the methods are resolved, and the enclosing class kind is restored |
| Resolving.Resolver.ResolveSubclass | src/Resolver/Resolver.php:310-339 | the superclass part resolves as `SubclassOutcome` |
| Resolving.Resolver.ResolveThisScope | src/Resolver/Resolver.php:324-336 | the methods resolve inside a scope holding `this` (`ThisScopeOutcome`) |
| Resolving.Resolver.ResolveMethod | src/Resolver/Resolver.php:328-333 | resolving a method is exactly `MethodOutcome`, which resolves it with the kind `MethodKind` gives its name |
| Resolving.Resolver.ResolveFunction | src/Resolver/Resolver.php:452-467 | a function body resolves in a fresh scope holding its parameters (`FunctionOutcome`) |
| Resolving.Resolver.ResolveVariable | src/Resolver/Resolver.php:271-285 | reading a variable resolves as `ExprOutcome` prescribes |
| Resolving.Resolver.ResolveSuper | src/Resolver/Resolver.php:205-219 | `super` resolves as `ExprOutcome` prescribes |
| Resolving.Resolver.ResolveThis | src/Resolver/Resolver.php:238-246 | `this` resolves as `ExprOutcome` prescribes |
| Resolving.Resolver.BeginScope | src/Resolver/Resolver.php:474-477 | pushes an empty scope |
| Resolving.Resolver.EndScope | src/Resolver/Resolver.php:522-525 | pops the innermost scope |
| Resolving.Resolver.Declare | src/Resolver/Resolver.php:487-501 | declaring a name is `Declared` |
| Resolving.Resolver.Define | src/Resolver/Resolver.php:510-515 | marks the name ready in the innermost scope |
| Resolving.Declared | src/Resolver/Resolver.php:487-501 | fails exactly when the innermost scope already holds the name, with "Already a variable with this name in this scope." and the state unchanged; otherwise the name is entered as not yet ready |
| Resolving.StmtOutcome | src/Resolver/Resolver.php:290-441 | a statement that passes keeps the frame: the same number of scopes, the outer scopes untouched, the innermost scope only gaining names, and the function and class kinds unchanged |
| Resolving.ExprOutcome | src/Resolver/Resolver.php:97-285 | resolving an expression never changes the state when it passes |
| Resolving.FunctionOutcome | src/Resolver/Resolver.php:452-467 | a function that passes leaves the enclosing state exactly as it was |
| Resolving.ClassOutcome | src/Resolver/Resolver.php:302-344 | a class that passes keeps the frame as a statement does, so the `super` and `this` scopes are gone and the class kind is restored |
| Resolving.SubclassOutcome | src/Resolver/Resolver.php:310-339 | a subclass that passes leaves the state as it was with the class kind SUBCLASS |
| Resolving.ProgramOutcome | src/Resolver/Resolver.php:65-92 | a program that passes ends with only the global scope |
| Resolving.SetTop | src/Resolver/Resolver.php:499-513 | only the innermost scope's entry for the name changes |
| Resolving.MethodKind | src/Resolver/Resolver.php:328-331 | a method is an initializer exactly when it is named `init` |
| ResolverLemmas.RedeclarationRejected | src/Resolver/Resolver.php:487-501 | declaring the same name twice in one scope fails at the second name |
| ResolverLemmas.OwnInitializerRejected | src/Resolver/Resolver.php:271-285 | `var a = a;` fails with "Can't read local variable in its own initializer" at the read |
| ResolverLemmas.ReadAfterDeclarationPasses | src/Resolver/Resolver.php:416-429 | after a declaration passes, reading the variable passes |
| ResolverLemmas.TopLevelReturnRejected | src/Resolver/Resolver.php:393-395 | `return` outside a function fails with "Can't return from top-level code." |
| ResolverLemmas.InitializerReturn | src/Resolver/Resolver.php:397-408 | an initializer may `return;` but not return a value |
| ResolverLemmas.ThisNeedsClass | src/Resolver/Resolver.php:238-246 | `this` fails exactly outside a class |
| ResolverLemmas.SuperNeedsSubclass | src/Resolver/Resolver.php:205-219 | `super` passes exactly inside a subclass, and in a class without a superclass it fails with "Can't use 'super' in a class with no superclass." |
| ResolverLemmas.SelfInheritanceRejected | src/Resolver/Resolver.php:311-315 | `class A < A` fails with "A class can't inherit from itself." at the superclass name |
| ResolverLemmas.RecursiveFunctionResolves | src/Resolver/Resolver.php:359-368 | a function that calls itself resolves, because its name is defined before its body |
| ResolverLemmas.ReturnOneOutcome | src/Resolver/Resolver.php:328-331 | a class method returning a value is rejected exactly when the method is `init` |
| Runtime.Env.Get | src/Interpreter/Environment/Global/GlobalEnvironment.php:30-41 | a name in the environment's own values is found there; a missing name is "Undefined variable 'x'." at 0:0 |
| Runtime.Env.Found | src/Interpreter/Environment/Global/GlobalEnvironment.php:30-41 | lookup succeeds exactly when some environment on the chain holds the name, and returns that binding |
| Runtime.Env.Owner | src/Interpreter/Environment/Global/GlobalEnvironment.php:30-41 | the environment that answers a lookup is on the chain and holds the name |
| Runtime.Env.Define | src/Interpreter/Environment/Global/GlobalEnvironment.php:46-51 | a global environment binds the name in place and returns itself; a local one returns a fresh copy with the binding and leaves itself unchanged; either way the name then reads back as the value |
| Runtime.Env.Assign | src/Interpreter/Environment/Global/GlobalEnvironment.php:56-66 | assignment succeeds exactly when the name was defined somewhere on the chain, and the name then reads back as the value; otherwise "Undefined variable 'x'." at the name |
| Runtime.Env.constructor | src/Interpreter/Environment/Global/GlobalEnvironment.php:21-24 | a new environment has the given enclosing environment and values |
| Runtime.LoxInstance.Lookup | src/Interpreter/Type/LoxInstance.php:34-51 | a field shadows a method; a method is found along the class chain; otherwise the property is missing |
| Runtime.LoxInstance.Set | src/Interpreter/Type/LoxInstance.php:61-64 | sets one field and keeps the others |
| Runtime.LoxArray.Push | src/Interpreter/Type/Literal/LoxArray.php:107-109 | appends under the next key and returns the new count |
| Runtime.LoxArray.Pop | src/Interpreter/Type/Literal/LoxArray.php:104-106 | removes and returns the last element, or nil when empty |
| Runtime.LoxArray.Shift | src/Interpreter/Type/Literal/LoxArray.php:113-115 | removes and returns the first element and renumbers the keys, or gives nil and leaves an empty array as it was, next free key included (`Shifted`) |
| Runtime.LoxArray.Unshift | src/Interpreter/Type/Literal/LoxArray.php:124-126 | prepends, renumbers the keys and returns the new count |
| Runtime.FindMethod | src/Interpreter/Type/Class/LoxClass.php:46-53 | a class's own method wins; otherwise the search goes up the superclass chain, and anything found belongs to a class on that chain |
| Runtime.ClassArities | src/Interpreter/Type/Class/LoxClass.php:58-61 | a class takes the arity of its `init`, or 0 when it has none |
| Runtime.FunctionArities | src/Interpreter/Type/Function/LoxFunction.php:66-69 | a function takes exactly its parameter count |
| Runtime.FunctionText | src/Interpreter/Type/Function/LoxFunction.php:74-81 | a named function prints as `<function name>`, an anonymous one as `<fn>` |
| Runtime.Bind | src/Interpreter/Type/Function/LoxFunction.php:90-97 | a bound method shares the declaration and the initializer flag, has no name, and closes over a fresh local environment enclosing the method's closure that holds only `this` |
| Runtime.IsTruthy | src/Interpreter/Interpreter.php:137-144 | nil, false, 0, "" and "0" and empty arrays are falsy; every non-literal value, even a bare host false, is truthy |
| Runtime.HostTruthy | src/Interpreter/Type/Literal/LoxArray.php:79-87 | PHP's own truth test, used by the `?:` in `map` to keep an element whose callback result is falsy: host null, host false, "" and "0" are false, and every object, even a Lox `false` or `nil`, is true |
| Runtime.NullToNil | src/Interpreter/Type/Function/LoxFunction.php:42 | PHP's `?? new LoxNil()`: host null becomes nil and nothing else changes |
| Runtime.Rewrapped | src/Interpreter/Interpreter.php:282-286 | an error thrown inside a call is re-raised at the call's parenthesis |
| Conversions.StringOf | src/Interpreter/Type/Literal/LoxLiteral.php:45-48 | PHP's string cast: strings as themselves, nil as "nil", booleans as "1" or "0", host null as ""; an array closure cannot be cast, and only arrays, numbers and natives can fail |
| Conversions.LiteralText | src/Interpreter/Type/Literal/LoxLiteral.php:45-48 | the text `toString` gives a literal: strings as themselves, nil and false as "", true as "1", arrays as "Array", and numbers as their integer text when PHP prints them exactly; every non-literal is an error |
| Conversions.ToIndex | src/Interpreter/Type/Literal/Function/Array/Get.php:19 | `(int)(string)`: the string form parsed as PHP's leading integer |
| Conversions.ToIndexOfNumber | src/Interpreter/Type/Literal/Function/Array/Get.php:19 | an integer-valued number, or its decimal text, converts back to that integer |
| Conversions.ToIndexOfNothing | src/Interpreter/Type/Literal/Function/Array/Get.php:19 | null, nil and false give 0, true gives 1, and a non-numeric string gives 0 |
| HostText.IntTextRoundTrip | src/Interpreter/Type/Literal/Function/Array/Get.php:19 | parsing the decimal text of any integer gives the integer back |
| HostText.NatTextValue | src/Interpreter/Type/Literal/Function/Array/Get.php:19 | the decimal text of a natural number reads back as that number |
| HostText.JoinExplode | src/Interpreter/Type/Literal/Function/String/Explode.php:24 | implode with a separator undoes explode with it |
| HostText.ExplodePiecesFree | src/Interpreter/Type/Literal/Function/String/Explode.php:24 | no exploded piece contains the separator |
| Operators.LiteralRule | src/Interpreter/Interpreter.php:322-332 | true and false give booleans, strings give strings, a numeral gives its value and any other NUMBER text fails, and every other kind gives nil |
| Operators.UnaryRule | src/Interpreter/Interpreter.php:416-431 | `!` negates truthiness; `-` negates a number and otherwise fails with "Operand must be a number." at the operator |
| Operators.NegationInvolutive | src/Interpreter/Interpreter.php:424-427 | negating a number twice gives it back |
| Operators.DoubleNot | src/Interpreter/Interpreter.php:422-423 | `!!v` is the truthiness of v as a boolean |
| Operators.NumberOperands | src/Interpreter/Interpreter.php:608-613 | both operands must be numbers, otherwise "Operands must be numbers." at the operator |
| Operators.BinaryRule | src/Interpreter/Interpreter.php:174-242 | comparisons and arithmetic need numbers; `+` also joins strings and merges arrays and reports everything else; `==` and `!=` are PHP loose equality and its negation; errors sit at the operator |
| Operators.PlusRule | src/Interpreter/Interpreter.php:205-222 | `+` on two numbers adds, on two strings concatenates, on two arrays merges, and otherwise fails with "Operands must be two numbers, strings or arrays." |
| Operators.NumericRule | src/Interpreter/Interpreter.php:181-238 | the comparisons give booleans of the numeric comparison, `-` and `*` give numbers, `/` gives the corrected `Quotient`, and `%` is the fault `Unmodelled("fmod")` |
| Operators.LooseEquals | src/Interpreter/Interpreter.php:197-200 | PHP 8 `==` on literal values: one kind compares by value, strings by text when either has no digit; nil against a string is equality with ""; nil or a boolean against another scalar compares truth; a number or an array against a digit-free string, and an array against a number, is false; non-literals are a host failure |
| Operators.LooseEqualsSymmetric | src/Interpreter/Interpreter.php:197-200 | loose equality is symmetric |
| Operators.LooseEqualsNotTransitive | src/Interpreter/Interpreter.php:197-200 | nil equals false and false equals "0", yet nil does not equal "0" |
| Operators.NotEqualNegatesEqual | src/Interpreter/Interpreter.php:197-200 | `!=` is always the negation of `==` |
| Operators.EqualityReflexive | src/Interpreter/Interpreter.php:199-200 | nil, booleans, numbers and strings equal themselves |
| Operators.ComparisonsAgree | src/Interpreter/Interpreter.php:181-196 | `a < b` is `b > a` and the opposite of `a >= b` |
| Operators.TypeName | src/Interpreter/Interpreter.php:404-411 | `typeof` names every Lox value, and fails on host null and host booleans |
| Operators.TypeNamesSeparateLiterals | src/Interpreter/Interpreter.php:404-411 | two literals get the same `typeof` name exactly when they are of the same kind |
| Operators.ArityCheck | src/Interpreter/Interpreter.php:266-280 | a call passes exactly when the arity list is empty or holds the argument count; otherwise "Expected … arguments but got n." at the parenthesis |
| Operators.ArityMessageExample | src/Interpreter/Interpreter.php:269-279 | two arguments for arities [0, 1] report "Expected 0 or 1 arguments but got 2." |
| Operators.ExpectedText | src/Interpreter/Interpreter.php:270-273 | the expected counts are listed with ", " and the last one is joined by " or " |
| Operators.QuotientAsWritten | src/Interpreter/Interpreter.php:223-230 | the division guard as written: a float zero divisor gives the integer 0, and an integer zero divisor reaches PHP's division and fails |
| Operators.DivisionByItsOwnZero | src/Interpreter/Interpreter.php:226-230 | `1 / (1 / 0)` fails, because the guard's own 0 is an integer |
| Operators.Quotient | src/Interpreter/Interpreter.php:223-230 | any zero divisor gives 0, and otherwise the quotient times the divisor is the dividend; it agrees with the code wherever the code does not fail |
| Operators.LogicalAsWritten | src/Interpreter/Interpreter.php:337-351 | `or`/`and` as written: the left operand when it decides, otherwise the bare host boolean of the right operand's truthiness |
| Operators.FalseOrFalseIsTruthy | src/Interpreter/Interpreter.php:350 | `false or false` yields host false, which `isTruthy` treats as true |
| Operators.Logical | src/Interpreter/Interpreter.php:337-351 | `or`/`and` with the right operand's truthiness as a Lox boolean |
| Operators.LogicalTruth | src/Interpreter/Interpreter.php:337-351 | the truthiness of `a or b` is truthy(a) or truthy(b), and of `a and b` is truthy(a) and truthy(b) |
| Natives.Arities | src/Interpreter/Type/Literal/LiteralFunction.php:46-72 | the arity loop gives exactly `ArityRule` |
| Natives.ArityRuleShape | src/Interpreter/Type/Literal/LiteralFunction.php:46-72 | without a variadic parameter, the arities strictly increase and end at the visible parameter count, and a count is accepted exactly when it is that count or an optional position |
| Natives.VariadicAcceptsAnything | src/Interpreter/Type/Literal/LiteralFunction.php:58-60 | a variadic parameter gives the empty arity list, which accepts any count |
| Natives.Splice | src/Interpreter/Type/Literal/LiteralFunction.php:29-40 | inserting the interpreter keeps the user's arguments in order and adds one slot per interpreter parameter; a closure whose first parameter is the interpreter gets it first |
| Natives.UsersWrapped | src/Interpreter/Type/Literal/LiteralFunction.php:31-37 | with nothing inserted, the arguments pass through unchanged |
| Natives.UserArguments | src/Interpreter/Type/Literal/LoxArray.php:36-126 | a closure receives its first and second user arguments, or null when they are missing |
| Natives.CharAtAsWritten | src/Interpreter/Type/Literal/Function/String/Get.php:20-29 | string `get` as written: a negative index adds the length once, and then PHP's own negative string offsets apply again |
| Natives.NegativeIndexWrapsTwice | src/Interpreter/Type/Literal/Function/String/Get.php:20-26 | `"abc".get(-4)` is "c", not nil |
| Natives.CharAt | src/Interpreter/Type/Literal/Function/String/Get.php:20-29 | an index from -length up to length gives that character, counting from the end when negative, and nil outside |
| Natives.CharAtAgrees | src/Interpreter/Type/Literal/Function/String/Get.php:20-29 | the corrected `get` agrees with the code from -length up; below that the code wraps a second time |
| Natives.ExplodeSeparator | src/Interpreter/Type/Literal/Function/String/Explode.php:19-22 | an empty or missing separator becomes a space |
| Natives.ExplodePiecesJoin | src/Interpreter/Type/Literal/Function/String/Explode.php:24 | the exploded pieces joined by the separator give the string back |
| Natives.ImplodeExplode | src/Interpreter/Type/Literal/LoxArray.php:69-73 | imploding an exploded string with its separator gives the string back |
| Natives.ImplodeText | src/Interpreter/Type/Literal/LoxArray.php:69-73 | implode succeeds exactly when the separator and every element cast to strings, and joins them |
| Natives.ElementAt | src/Interpreter/Type/Literal/LoxArray.php:61-68 | array `get` gives the element under the key, counted from the end when negative, or nil; never host null |
| Natives.ElementAtFromEnd | src/Interpreter/Type/Literal/LoxArray.php:63-67 | on a list, a negative index counts from the end |
| Natives.SliceLength | src/Interpreter/Type/Literal/LoxArray.php:118-120 | a missing length stays missing, otherwise it is cast to an integer |
| Natives.FirstAsWritten | src/Interpreter/Type/Literal/LoxArray.php:56-60 | `first` as written: the first value, or host false for an empty array |
| Natives.LastAsWritten | src/Interpreter/Type/Literal/LoxArray.php:74-78 | `last` as written: the last value, or host false for an empty array |
| Natives.EmptyFirstIsTruthy | src/Interpreter/Type/Literal/LoxArray.php:56-78 | `[].first()` and `[].last()` are host false, which `isTruthy` treats as true |
| Natives.FirstElement | src/Interpreter/Type/Literal/LoxArray.php:56-60 | `first` gives nil, which is falsy, for an empty array, and otherwise agrees with the code |
| Natives.LastElement | src/Interpreter/Type/Literal/LoxArray.php:74-78 | `last` gives nil, which is falsy, for an empty array, and otherwise agrees with the code |
| Natives.Extreme | src/Interpreter/Type/Literal/LoxArray.php:88-103 | `max`/`min` cast every element to an integer and give the largest or smallest, or nil for an empty array |
| Natives.MaxOf | src/Interpreter/Type/Literal/LoxArray.php:94 | the maximum is an element and no element exceeds it |
| Natives.MinOf | src/Interpreter/Type/Literal/LoxArray.php:102 | the minimum is an element and no element is below it |
| Natives.ArrayQuery | src/Interpreter/Type/Literal/LoxArray.php:33-103 | the read-only closures: `count`, `first` and `last` never fail, and `first`/`last` of an empty array give nil; `get`, `implode`, `max` and `min` fail exactly when a cast fails; results are scalars or elements of the array |
| Natives.LiteralProperty | src/Interpreter/Type/Literal/LoxLiteral.php:25-31 | `toString` on every literal, `get`/`explode` on strings and the closures on arrays; the closures act on that very array |
| Natives.ToStringResult | src/Interpreter/Type/Literal/Function/ToString.php:13-16 | `toString()` gives the literal's text as a string |
| Natives.CharAtCovers | src/Interpreter/Type/Literal/Function/String/Get.php:20-29 | every character is reachable by its index and by its index minus the length |
| Natives.ArrayFunction.Arities | src/Interpreter/Type/Literal/Function/Array/Slice.php:31-34 | get, push and unshift take 1 argument, pop and shift 0, slice 1 or 2 |
| Natives.ArrayFunction.Call | src/Interpreter/Type/Literal/Function/Array/Get.php:17-25 | get gives `ElementAt` of the cast index and slice gives `Sliced`, both leaving the held array alone; push and unshift change the function object's own copy and return the new count; pop and shift return the removed element or nil |
| PhpArrays.Pushed | src/Interpreter/Type/Literal/LoxArray.php:107-109 | array_push appends the value under the next key |
| PhpArrays.Popped | src/Interpreter/Type/Literal/LoxArray.php:104-106 | array_pop drops the last entry and rolls the next key back |
| PhpArrays.Shifted | src/Interpreter/Type/Literal/LoxArray.php:113-115 | array_shift drops the first value and renumbers from 0 with the count as the next free key; an empty array is left exactly as it was |
| PhpArrays.EmptyShiftKeepsNextKey | src/Interpreter/Type/Literal/LoxArray.php:104-115 | after a filter leaves key 1 and a pop empties the array, shift then push stores under key 1, so key 0 stays unset |
| PhpArrays.Unshifted | src/Interpreter/Type/Literal/LoxArray.php:124-126 | array_unshift prepends and renumbers from 0 |
| PhpArrays.Reversed | src/Interpreter/Type/Literal/LoxArray.php:110-112 | array_reverse gives the values in the opposite order |
| PhpArrays.Merged | src/Interpreter/Interpreter.php:214-216 | array_merge gives the left values followed by the right |
| PhpArrays.Sliced | src/Interpreter/Type/Literal/LoxArray.php:116-123 | array_slice gives the values in the window from the offset and length |
| PhpArrays.SliceWindow | src/Interpreter/Type/Literal/LoxArray.php:122 | negative offsets and lengths count from the end, and the window stays inside the array |
| PhpArrays.Filtered | src/Interpreter/Type/Literal/LoxArray.php:45-55 | array_filter keeps an entry under its old key exactly when its flag is set, drops the others, and adds nothing |
| PhpArrays.Mapped | src/Interpreter/Type/Literal/LoxArray.php:79-87 | array_map keeps the keys and replaces the values |
| PhpArrays.Lookup | src/Interpreter/Type/Literal/LoxArray.php:67 | a key is found exactly when some entry has it, and gives that entry's value |
| PhpArrays.PopUndoesPush | src/Interpreter/Type/Literal/LoxArray.php:104-109 | popping after pushing restores the array, keys included |
| PhpArrays.ShiftUndoesUnshift | src/Interpreter/Type/Literal/LoxArray.php:113-126 | shifting after unshifting gives back the values, renumbered as a list |
| PhpArrays.ReverseInvolutive | src/Interpreter/Type/Literal/LoxArray.php:110-112 | reversing twice gives back the values |
| Interpreting.ClassMethods | src/Interpreter/Interpreter.php:475-484 | a class's methods by name: each closes over the class environment and carries the class name, is an initializer exactly when named `init`, and a later method of the same name wins |
| Interpreting.Bindings | src/Interpreter/Type/Function/LoxFunction.php:40-43 | a call binds exactly the parameter names |
| Interpreting.BindingsBindEach | src/Interpreter/Type/Function/LoxFunction.php:40-43 | each parameter not repeated later gets its argument, or nil when the argument is missing or null |
| Interpreting.ArgumentFor | src/Interpreter/Type/Function/LoxFunction.php:42 | a parameter receives its argument, or nil when the argument is missing or null |
| Interpreting.AritiesOf | src/Interpreter/Interpreter.php:268 | each callable reports its own arity list |
| Interpreting.FoundMethodClosure | src/Interpreter/Type/Class/LoxClass.php:46-53 | a method found along a class chain closes over one of the chain's environments |
| Interpreting.Interpreter.constructor | src/Interpreter/Interpreter.php:86-100 | the interpreter starts in an empty global environment |
| Interpreting.Interpreter.Evaluate | src/Interpreter/Interpreter.php:149-440 | literals follow `LiteralRule`, a variable gives the binding the environment held before and fails exactly when it is undefined, and a function expression closes over the current environment; every result refers only to known objects |
| Interpreting.Interpreter.EvaluateUnary | src/Interpreter/Interpreter.php:404-431 | `typeof` always gives a string; every result keeps the interpreter invariant and the current environment |
| Interpreting.Interpreter.EvaluateArray | src/Interpreter/Interpreter.php:149-157 | an array literal gives a fresh list-keyed array with one element per item |
| Interpreting.Interpreter.EvaluateAssign | src/Interpreter/Interpreter.php:163-169 | after an assignment the variable reads back as the result |
| Interpreting.Interpreter.EvaluateBinary | src/Interpreter/Interpreter.php:174-242 | a binary expression keeps the interpreter invariant and the current environment, and its result refers only to known objects |
| Interpreting.Interpreter.ApplyBinary | src/Interpreter/Interpreter.php:180-241 | the result is what `BinaryRule` gives; a merge gives a fresh array |
| Interpreting.Interpreter.EvaluateLogical | src/Interpreter/Interpreter.php:337-351 | with literal operands the result is the corrected `Logical` rule: the left operand when it decides, otherwise the right operand's truthiness as a Lox boolean; the result refers only to known objects |
| Interpreting.Interpreter.EvaluateGet | src/Interpreter/Interpreter.php:300-309 | a property read keeps the interpreter invariant and the current environment, and its result refers only to known objects |
| Interpreting.Interpreter.GetProperty | src/Interpreter/Interpreter.php:300-309 | literals answer with their built-in functions, instances with a field or a bound method or "Undefined property 'x'.", and anything else is "Only instances have properties." |
| Interpreting.Interpreter.EvaluateSet | src/Interpreter/Interpreter.php:356-368 | a property write keeps the interpreter invariant and the current environment, and its result refers only to known objects |
| Interpreting.Interpreter.EvaluateSuper | src/Interpreter/Interpreter.php:373-390 | an undefined `super` fails as the lookup does; otherwise the result is the superclass's method bound to `this` |
| Interpreting.Interpreter.BindSuper | src/Interpreter/Interpreter.php:378-389 | succeeds exactly when the superclass has the method and `this` is an instance; a missing method is "Undefined property 'x'." at the method name |
| Interpreting.Interpreter.Lookup | src/Interpreter/Interpreter.php:437-440 | a variable read is the environment chain's lookup |
| Interpreting.Interpreter.EvaluateAll | src/Interpreter/Interpreter.php:261-264 | the arguments evaluate to one value each, all referring to known objects |
| Interpreting.Interpreter.EvaluateCall | src/Interpreter/Interpreter.php:248-287 | a callee that is a literal, or a variable bound to a value that is not a function, class or built-in, fails with "Can only call functions and classes." at the parenthesis; a call keeps the current environment and its result refers only to known objects |
| Interpreting.Interpreter.Invoke | src/Interpreter/Interpreter.php:253-286 | calling a class gives an instance of that class; a user function with no fuel is `OutOfFuel` and an initializer gives `this`; array queries give `ArrayQuery`, array mutators leave `Mutated`, and `toString`, string `get` and `explode` give `ToStringResult`, `CharAt` and `ExplodePieces` |
| Interpreting.Interpreter.CallFunction | src/Interpreter/Type/Function/LoxFunction.php:38-61 | with no fuel left the call is `OutOfFuel`; an initializer returns the `this` of its closure |
| Interpreting.Interpreter.CallResult | src/Interpreter/Type/Function/LoxFunction.php:45-60 | an abrupt body gives its fault; an initializer gives `this`; otherwise the returned value, or host null when the body finishes without `return` |
| Interpreting.Interpreter.BindParameters | src/Interpreter/Type/Function/LoxFunction.php:40-43 | the call environment is a fresh local environment under the closure holding exactly the parameter bindings |
| Interpreting.Interpreter.CallClass | src/Interpreter/Type/Class/LoxClass.php:31-37 | a class call gives a fresh instance of the class, with no fields when there is no `init` |
| Interpreting.Interpreter.CallNative | src/Interpreter/Interpreter.php:253-255 | array queries give `ArrayQuery` of the array as it was, array mutators leave `Mutated`, and `toString`, string `get` and `explode` behave as `ToStringResult`, `CharAt` and `ExplodePieces` |
| Interpreting.Interpreter.CallArrayClosure | src/Interpreter/Type/Literal/LoxArray.php:30-128 | the read-only closures give `ArrayQuery`, and the mutating ones change the array as `Mutated` prescribes |
| Interpreting.Interpreter.CallbackClosure | src/Interpreter/Type/Literal/LoxArray.php:36-87 | `each` gives nil; `filter` gives `Filtered` of the array by the truth of each element, or of each callback result; `map` gives `Mapped` by each callback result, or the element where the host finds that result false, and a copy without a function |
| Interpreting.Interpreter.Query | src/Interpreter/Type/Literal/LoxArray.php:33-103 | a read-only closure gives exactly `ArrayQuery` |
| Interpreting.Interpreter.ArrayChange | src/Interpreter/Type/Literal/LoxArray.php:104-126 | push, pop, shift and unshift change the array in place; reverse and slice leave it alone and give a fresh array |
| Interpreting.Interpreter.Mutate | src/Interpreter/Type/Literal/LoxArray.php:104-126 | the array becomes `Mutated`; push and unshift give the new count, and pop and shift the removed element or nil |
| Interpreting.Interpreter.Copy | src/Interpreter/Type/Literal/LoxArray.php:110-123 | reverse gives `Reversed` and slice gives `Sliced`, each as a fresh array |
| Interpreting.Interpreter.EachClosure | src/Interpreter/Type/Literal/LoxArray.php:36-44 | `each` gives nil and does nothing when the callback is not a function |
| Interpreting.Interpreter.FilterClosure | src/Interpreter/Type/Literal/LoxArray.php:45-55 | the result is exactly `Filtered` of the array as it was by one flag per entry: without a function callback each flag is the entry's own truth, with one the truth of the callback's result |
| Interpreting.Interpreter.MapClosure | src/Interpreter/Type/Literal/LoxArray.php:79-87 | with a function callback the result is exactly `Mapped` of the array by `MapValues`, each callback result or the element where the `?:` finds that result false; without one, a copy of the array |
| Interpreting.Interpreter.ArrayPush | src/Interpreter/Type/Literal/LoxArray.php:107-109 | the array becomes `Pushed` and the result is its new count |
| Interpreting.Interpreter.ArrayPop | src/Interpreter/Type/Literal/LoxArray.php:104-106 | the array becomes `Popped` and the result is its last element, or nil when it was empty |
| Interpreting.Interpreter.ArrayShift | src/Interpreter/Type/Literal/LoxArray.php:113-115 | the array becomes `Shifted` (an empty one keeps its next free key) and the result is its first element, or nil when it was empty |
| Interpreting.Interpreter.ArrayUnshift | src/Interpreter/Type/Literal/LoxArray.php:124-126 | the array becomes `Unshifted` and the result is its new count |
| Interpreting.Interpreter.Bound | src/Interpreter/Type/Function/LoxFunction.php:90-97 | a bound method keeps the declaration and the initializer flag and closes over a fresh environment enclosing the method's closure that holds only `this` |
| Interpreting.Interpreter.NewEnv | src/Interpreter/Environment/Local/LocalEnvironment.php:15-21 | a new local environment is empty and known to the interpreter |
| Interpreting.Interpreter.DefineIn | src/Interpreter/Environment/Local/LocalEnvironment.php:15-21 | define in place for the global environment, on a fresh copy for a local one |
| Interpreting.Interpreter.AssignIn | src/Interpreter/Environment/Global/GlobalEnvironment.php:56-66 | assignment succeeds exactly when the name is defined on the chain |
| Interpreting.Interpreter.SetField | src/Interpreter/Type/LoxInstance.php:61-64 | the instance's fields gain or replace exactly one entry |
| Interpreting.Interpreter.NewInstance | src/Interpreter/Type/Class/LoxClass.php:33 | a fresh instance with no fields |
| Interpreting.Interpreter.NewArray | src/Interpreter/Interpreter.php:156 | a fresh array known to the interpreter |
| Interpreting.Interpreter.Execute | src/Interpreter/Interpreter.php:445-580 | a function declaration binds its name to a function closing over the environment from before the declaration; `return;` returns host null; `var x;` binds null; statements keep the environment's kind, and in the global environment the very same environment; only `return`, blocks, `if` and `while` can return |
| Interpreting.Interpreter.ExecuteWhile | src/Interpreter/Interpreter.php:573-580 | the conditions tested are all true but the last; the loop ends normally exactly when the last is false, fails with its fault, or returns from the body; it tests at most fuel + 1 times; a literal condition tests as `LiteralTruth`, so a falsy one never runs the body; a loop keeps the environment's kind |
| Interpreting.Interpreter.ExecuteClass | src/Interpreter/Interpreter.php:455-498 | a class declaration binds the class's own name to a class of that name whose methods are the declared ones |
| Interpreting.Interpreter.BindClass | src/Interpreter/Interpreter.php:467-495 | the class is bound under its name with the given superclass and the declared method names |
| Interpreting.Interpreter.SuperclassOf | src/Interpreter/Interpreter.php:459-465 | no superclass clause gives none; a superclass name bound to a class gives that class; one bound to anything else is "Superclass must be a class." at the class name |
| Interpreting.Interpreter.MethodClosure | src/Interpreter/Interpreter.php:470-473 | with a superclass the methods close over a fresh environment holding `super` |
| Interpreting.Interpreter.ExecuteVar | src/Interpreter/Interpreter.php:560-568 | `var x = v;` with a literal `v` binds x to the literal's value and changes no other binding of the environment, or fails with the literal's fault; without an initializer it binds host null; any declaration that completes binds the name to a value that refers only to known objects |
| Interpreting.Interpreter.ExecuteIf | src/Interpreter/Interpreter.php:526-535 | a true condition runs the then-branch, a false one the else-branch or nothing, and one that fails gives its fault and runs neither; a literal condition tests as `LiteralTruth`; `if` keeps the environment's kind |
| Interpreting.Interpreter.ValueOrNull | src/Interpreter/Interpreter.php:550-568 | a missing expression gives host null and a literal gives its `LiteralRule` value, both leaving the environment's bindings alone |
| Interpreting.Interpreter.Declare | src/Interpreter/Interpreter.php:513-568 | the name is bound in the current environment, in place in the global one and on a fresh copy in a local one |
| Interpreting.Interpreter.ExecuteBlock | src/Interpreter/Interpreter.php:119-132 | afterwards the current environment is the one from before the block, as the `finally` restores it; an empty block completes normally, and one with no return, block, `if` or `while` never returns |
| Interpreting.Interpreter.ExecuteStatements | src/Interpreter/Interpreter.php:107-114 | statements run in order and stop at the first that returns or faults: a normal completion ran them all, any other ran at least one and the return came from a statement that can return |

## Left out

- `LoxSystem`, the `print` statement, its output stream and `clock` are I/O and are not part of this model.
- Number functions (`abs`, `floor`, `round`) and `%` are left out: they call PHP's floating-point library (`fmod`).
- Operators.NumericRule: `%` gives the fault `Unmodelled("fmod")`, not a remainder. `/` is the corrected `Quotient`, which gives 0 for every zero divisor; the code as written is `QuotientAsWritten` (see Findings).
- Numbers are exact rationals (`real`). IEEE-754 rounding, NaN and INF are not modelled, so `0.1 + 0.2` is exactly `0.3` in the model.
- Conversions.StringOf: the string cast of an array is the fault `Unmodelled("text of an array")`, as is the text of a non-integer float.
- String functions `length`, `match`, `matchAll`, `replace`, `reverse` and `trim` are left out: they are one-line calls into PHP's string and regular-expression library.
- Printing a non-integer float is host behaviour and is left out: `StringOf` reports a number's text as unknown.
- Operators.LooseEquals: gives `Unmodelled` for two strings that both hold a digit, a number against a string with a digit (PHP's numeric-string rules), two arrays (element-wise object comparison), and an array against nil or a boolean (its truth needs its count).
- `typeof` names values by reflection on their PHP class. The model keeps only the table of names (`TypeName`).
- The older `src/Interpreter/Callable/*` hierarchy and `LoxLiteralFunction` are not used by the interpreter and are not part of this model.
- `LoxPHP.php`, which wires the stages together and reports errors, is not part of this model.
- The ternary expression is not part of this model: the parser never builds one.
- The `Function/Array/*` and `Function/String/*` helper classes for `count`, `each`, `filter`, `first`, `implode`, `last`, `map`, `max`, `min` and `reverse` behave like the `LoxArray` closures of the same name. Only the closures are modelled for those; `Natives.ArrayFunction` models get, slice, push, pop, shift and unshift.
- PHP's integer overflow into floats is not modelled: integers are unbounded.
- Interpreting.Interpreter.Evaluate: every evaluation carries fuel. Running out is the fault `OutOfFuel`, a result the PHP code (which may not terminate) never gives.
- Interpreting.Interpreter.EvaluateBinary: states only the invariant, not the operator's effect. The operator is stated separately by `ApplyBinary` and `BinaryRule`.
- Interpreting.Interpreter.EvaluateLogical: executes the corrected `Operators.Logical`: when the right operand decides, the result is a Lox boolean, not PHP's bare boolean (see Findings). Its contract states the value only for literal operands; that the right operand is not evaluated when the left decides is not stated.
- Interpreting.Interpreter.EvaluateGet: states only the invariant; the lookup itself is `GetProperty`'s contract.
- Interpreting.Interpreter.EvaluateSet: states only the invariant. Its errors "Only instances have fields." and the literal refusal are not in the contract.
- Interpreting.Interpreter.EvaluateCall: states the non-callable error only for a literal or variable callee; the arity check is `Operators.ArityCheck` and the call itself is `Invoke`.
- Interpreting.Interpreter.EvaluateUnary: states only that `typeof` gives a string. `!` and `-` are stated by `Operators.UnaryRule`.
- Interpreting.Interpreter.EvaluateAll: does not state left-to-right order.
- Interpreting.Interpreter.CallFunction: does not state that the body runs in the environment `BindParameters` builds.
- Interpreting.Interpreter.FilterClosure: with a function callback, the flags are the truth of the callback's results, returned as a ghost output; what the callback returns is not stated, since `CallFunction` has no semantics of the body. `MapClosure` is the same for the results it maps.
- Parsing.Parser: a parser is built for one token list, which it holds as a constant. PHP's `parse()` takes a new token list on every call but does not reset its cursor; reusing a parser is not modelled.
- Natives.ArrayQuery: `first` and `last` use the corrected `FirstElement` and `LastElement`, which give nil for an empty array; the code as written gives host false (see Findings).
- Interpreting.Interpreter.CallNative: string `get` uses the corrected `CharAt`, which gives nil for every index below minus the length; the code as written wraps a second time (see Findings).
- Interpreting.Interpreter.Execute: statements are not proved against a semantics function over the heap. `ExecuteIf` and `ExecuteWhile` return, as ghost outputs, the truth of each condition they tested and the branch they ran, and their contracts tie the completion to those; the truth itself is tied to the condition only for a literal. `ExecuteVar` states its binding only for a literal or missing initializer.
- Interpreting.Interpreter.ExecuteWhile: with fuel, a loop that PHP would run forever ends in `OutOfFuel`.
- Runtime.Env.Define: `Environment.php` differs from `GlobalEnvironment.php` only in that its `define` returns nothing. It is modelled by the same class with `copyOnDefine` false.
- Interpreting.Interpreter.Execute: the `finally` that restores the environment after a block is modelled. PHP exceptions unwinding through several frames are modelled as the `Abrupt` completion.

Quirks of the source that the model keeps as written:
- A `//` comment consumes one extra character, so `//` followed directly by a newline also skips the next line.
- A block comment consumes one extra character after `/*`, and `/* a */` at the very end of the input is "Unterminated comment" (`CommentClosingAtEndIsUnterminated`).
- A source that ends right after `//` or `/*` makes that extra consume read past the end, which fails with PHP's TypeError (`CommentOpenerAtEndFails`).
- A `\n` escape becomes a real newline that the scanner counts as a new line.
- A keyword keeps its source casing as its lexeme.
- A function declared in a block closes over the environment from before its own definition, so it cannot call itself.

## Findings

| source | as written | input that shows it | evidently intended | confidence | as-written member | corrected member |
|---|---|---|---|---|---|---|
| src/Interpreter/Interpreter.php:350 | `or`/`and` return PHP's own boolean when the right operand decides, and `isTruthy` treats every non-literal as true | `false or false`: its result is truthy, so `if (false or false)` takes the then-branch | a Lox boolean, so the result's truth is the logical or/and of the operands' truth | not executed | Operators.LogicalAsWritten, Operators.FalseOrFalseIsTruthy | Operators.Logical, Operators.LogicalTruth |
| src/Interpreter/Interpreter.php:226-230 | the zero guard compares with `=== 0.0`, but its own result `new LoxNumber(0)` holds an integer 0 | `1 / (1 / 0)`: the inner division gives integer 0, which passes the guard, and PHP's division by zero throws | every zero divisor gives 0 | not executed | Operators.QuotientAsWritten, Operators.DivisionByItsOwnZero | Operators.Quotient |
| src/Interpreter/Type/Literal/Function/String/Get.php:20-26 | a negative index adds the length once and then PHP's negative string offset adds it again | `"abc".get(-4)` gives "c" | nil for every index below -length | not executed | Natives.CharAtAsWritten, Natives.NegativeIndexWrapsTwice | Natives.CharAt, Natives.CharAtAgrees |
| src/Interpreter/Type/Literal/LoxArray.php:56-78 | `current()` on an empty array gives false, which `??` does not replace with nil | `[].first()` gives host false, which is truthy | nil for an empty array | not executed | Natives.FirstAsWritten, Natives.LastAsWritten, Natives.EmptyFirstIsTruthy | Natives.FirstElement, Natives.LastElement |
