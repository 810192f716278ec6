# Front end of a small C-like language, in Dafny

This project models the front end of a small teaching compiler for a C-like
language. It covers three pieces.

- **The lexer** (lexer.c) turns NUL-terminated source text into a token list that ends in `END`.
- **The recursive-descent parser** (parser.c) recognises the grammar with backtracking. While it does so, it builds the symbol table.
- **The symbol table and type sizes** (ad.c) is a stack of domains (scopes), holding structs, functions, parameters and variables.

## How the model is organised

- `tokens.dfy` (module `Tokens`): the token codes, in the order of `lexer.h`; the `Token` record; and the value `atoi` gives an `INT` token.
- `lexer.dfy` (module `Lexer`):
  - `StepAt` is one turn of the scanner's `for(;;) switch`.
  - `Lex` is the whole scan as a function.
  - The class `Lexer` holds the global `tokens` list and the `line` counter. Its methods `AddTk`, `ScanChar`, `ScanString`, `ScanWord`, `ScanNumber`, `ScanOperator` and `Tokenize` are the imperative scanner, proved to compute `Lex`.
  - A failed scan (an `err` call or a `return NULL`) is a `Failed(error)` result.
- `lexer_properties.dfy` (module `LexerProperties`): what `Lex` promises.
  - The token list ends in exactly one `END`.
  - Lines never decrease.
  - It handles two-character operators, comments and newlines, keywords and identifiers, and number, char and string literals.
  - Concrete scans such as `5-3` and `3.14e2`.
- `ad.dfy` (module `Ad`):
  - Types and symbols.
  - The size functions `BaseSizeOf` and `SizeOf`, with the loop methods `TypeBaseSize` and `TypeSize` proved against them.
  - Symbol lists as sequences.
  - Lookup in one domain (`FindInList`) and innermost-first through the stack (`FindInStack`).
  - The class `SymTable`, whose field `domains` is the domain stack, innermost last. `pushDomain` appends an empty domain and `dropDomain` removes the last one.
- `scopes.dfy` (module `Scopes`): how declarations change the stack.
  - The global `owner` is a reference `SymRef(depth, index)` to the function or struct being defined. That symbol lives in a domain below the current one.
  - A declaration appends to the current domain and to the owner's locals or struct members. Every other symbol stays as it was (`Evolved`, `VarAdded`, `ParamAdded`).
  - A function's locals and parameters are numbered by position (`LocalsIndexed`, `ParamsIndexed`).
  - Struct members sit at the running byte offset (`MemberOffsets`), so they lie inside the struct and do not overlap.
- `parser.dfy` (module `Parser`): the class `Parser`.
  - Fields: the token list, the cursor `pos` (parser.c `iTk`), the last consumed token, `owner` and the symbol table.
  - Every matcher of parser.c is a method returning an `Outcome`:
    - `Ok(true)` when the rule was recognised;
    - `Ok(false)` when it was not, in which case the cursor is back where it started. The one exception is `typeBase`, with its `struct` arm `StructBase`: after a `struct` that no ID follows, the `struct` stays consumed (parser.c:51-63);
    - `Fatal(line, diag)` where parser.c calls `tkerr`, which stops the run.
  - Matchers that call each other terminate by the pair (tokens left, rank of the rule).
  - Struct and function definitions are proved to add exactly one well-formed symbol to the current domain and to leave the rest of the stack unchanged.

The expression type checker, `canBeScalar` and `convTo`, is not part of this
model. The parser receives both as function parameters that are applied to
the token span of the expression.

Some behaviour of the code is easy to misread. The model follows the code as written:

- The number scanner accepts `+` and `-` anywhere inside a number (lexer.c:244), not only after an exponent. So `5-3` is one `INT` token whose text is `5-3` (`LexerProperties.SignInsideNumber`).
- A parameter's stored `type.n` is always overwritten with the address width (`sizeof(void*)`) 8 (parser.c:302-305), even for `int v[]`: the 0 that parser.c:295 stores for `[]` is overwritten at parser.c:305. The struct arm of that conditional is dead, because `typeBase` leaves `n` at -1 and `arrayDecl` as used there leaves 0.
- A function body is parsed by `stmCompound(false)` in the domain that holds the parameters (parser.c:210, 262). A block nested inside it opens a domain of its own (parser.c:421).

## Model

| member | source | states |
|---|---|---|
| Tokens.DigitRun | lexer.c:288 | the run of leading decimal digits: all digits, and the next character is not one |
| Tokens.AtoiIgnoresTail | lexer.c:288 | `atoi` of an INT text is the value of its leading digits; whatever follows them is ignored |
| Tokens.DigitRunOfDigits | lexer.c:288 | the digit run of digits followed by a non-digit is exactly those digits |
| Ad.BaseSizeOf | ad.c:13-27 | a base size is never negative |
| Ad.SizeOf | ad.c:31-35 | a type size is never negative |
| Ad.SumSizes | ad.c:20-24 | the sum of member sizes is never negative |
| Ad.SumSizesAppend | ad.c:20-24 | a struct with one more member is larger by exactly that member's size: no padding |
| Ad.SumSizesConcat | ad.c:20-24 | member sizes add up over any split of the member list |
| Ad.TypeBaseSize | ad.c:13-27 | the loop computes the base size: int 4, double 8, char 1, void 0, and struct the sum of its members' sizes in list order |
| Ad.TypeSize | ad.c:31-35 | the base size when n<0, the address width (`sizeof(void*)`) 8 when n==0, and n times the base size otherwise |
| Ad.NewSymbol | ad.c:48-54 | the new symbol has the given name and kind, and every other field is zero or empty |
| Ad.DupSymbol | ad.c:58-63 | the copy equals the original in every field |
| Ad.AddSymbolToList | ad.c:67-76 | appends at the tail: one longer, the old elements kept in order, the new one last |
| Ad.SymbolsLen | ad.c:79-83 | the loop counts exactly the elements of the list |
| Ad.AddFnParam | ad.c:228-234 | the parameter is a fresh parameter symbol (no owner, no storage, no lists) with the given name and type and an index equal to the number of earlier parameters; the returned function equals the old one with that parameter appended to its parameter list |
| Ad.AddFnParamKeepsIndexing | ad.c:228-234 | if parameters were numbered by position before, they still are after adding one |
| Ad.FindInList | ad.c:193-198 | a found symbol is in the domain and has the name; nothing is found exactly when no symbol there has the name |
| Ad.FindInListIsFirst | ad.c:193-198 | the symbol found is the first one in insertion order that has the name |
| Ad.FindSymbolInDomain | ad.c:193-198 | the loop returns what the one-domain lookup returns |
| Ad.FindInStack | ad.c:202-208 | a found symbol has the name; nothing is found exactly when no domain has the name |
| Ad.FindInStackShadowing | ad.c:202-208 | the innermost domain that has the name decides the result: inner names shadow outer ones |
| Ad.FindInStackStep | ad.c:202-208 | lookup tries the current domain first, then the parents in turn |
| Ad.PushHidesNothing | ad.c:105-111 | pushing an empty domain leaves every lookup as it was |
| Ad.SymTable.constructor | ad.c:9 | the table starts with no domain |
| Ad.SymTable.PushDomain | ad.c:105-111 | a new empty domain becomes current, on top of the old stack |
| Ad.SymTable.DropDomain | ad.c:115-120 | the current domain is removed and its parent becomes current, so a push followed by a drop restores the table |
| Ad.SymTable.AddSymbolToDomain | ad.c:212-214 | the symbol is appended to the current domain and every other domain is unchanged |
| Ad.SymTable.AddExtFn | ad.c:218-224 | the symbol returned is exactly a new function symbol with the given name and the return type, and nothing else set; it is appended to the current domain, and the other domains are unchanged |
| Ad.SymTable.FindSymbol | ad.c:202-208 | returns the innermost-first lookup over the table's domains |
| Scopes.VarsNumberedAt | parser.c:127-129 | in a function's locals, the local at position k has slot index k |
| Scopes.ParamsNumberedAt | parser.c:302 | in a function's parameters, the parameter at position k has index k |
| Scopes.MemberOffsetAt | parser.c:131-133 | struct member k sits at the total size of the members before it |
| Scopes.MembersInsideStruct | parser.c:131-133 | every member lies entirely inside the struct's size |
| Scopes.MembersDisjoint | parser.c:131-133 | an earlier member ends at or before a later member starts: members do not overlap |
| Scopes.DeclareVarKeepsShape | parser.c:125-135 | a variable put at the owner's next slot keeps the locals numbered, or the members at their offsets; only the locals or members grow |
| Scopes.DeclareParamKeepsShape | parser.c:302-308 | a parameter numbered after the earlier ones keeps the function's parameters numbered |
| Scopes.Replace | parser.c:125-135 | a write through the owner pointer changes exactly the owner's slot |
| Scopes.EvolvedRefl | parser.c:358-364 | doing nothing is a valid step of declarations |
| Scopes.EvolvedTrans | parser.c:423-427 | two successive steps of declarations compose into one |
| Scopes.EvolvedWeaken | parser.c:423-427 | a step that left the current domain unchanged is also one that let it grow |
| Scopes.BodyDrop | parser.c:428-433 | dropping an inner block's domain leaves the function body's current domain unchanged; only the function's locals grew |
| Scopes.EvolvedDrop | ad.c:115-120 | dropping a domain opened for a definition leaves the stack below changed only at the owner |
| Scopes.ParamsThenBody | parser.c:189-220 | parameters then a body, with the domain dropped afterwards, change only the function: same name and type, locals and parameters numbered |
| Scopes.VarDeclEvolves | parser.c:118-137 | a variable declaration is a step of declarations that keeps the owner valid and of the same kind |
| Scopes.ParamDeclKeeps | parser.c:297-309 | a parameter declaration keeps the owner a numbered function with its name and type |
| Scopes.ParamStep | parser.c:297-309 | appending the parameter to the current domain and to the owner's parameters is a valid parameter declaration |
| Scopes.VarStep | parser.c:118-137 | appending a global with storage, or a local or member at the owner's next slot, is a valid variable declaration |
| Scopes.ParamsDeclaredTrans | parser.c:196-206 | two successive parameter declarations compose into one |
| Scopes.DropOwnerDomain | parser.c:88-92 | once the struct's domain is dropped, the stack is the old one with only the struct updated |
| Lexer.IsExponent | lexer.c:15-17 | an exponent marker is a letter, and none of the number loop's other characters (a digit, `.`, `+` or `-`) |
| Lexer.Keyword | lexer.c:213-237 | a word is a keyword exactly when it is the spelling of that keyword's code, in both directions; every other word is an ID |
| Lexer.Lex | lexer.c:43-311 | a successful scan returns a non-empty list whose last token is END |
| Lexer.Extract | lexer.c:35-41 | the extracted text is exactly the characters between the two positions |
| Lexer.IdentEnd | lexer.c:210-211 | the end of the maximal run of letters, digits and `_` |
| Lexer.LineEnd | lexer.c:162-165 | a comment runs to the newline or the terminator, without including it |
| Lexer.StrEnd | lexer.c:187-197 | a string's text runs to the next `"` or the terminator |
| Lexer.NumberRun | lexer.c:244-275 | a number run that succeeds ends at the first character a number cannot contain, and everything before that is a number character |
| Lexer.StepAt | lexer.c:46-309 | a turn that skips or emits always advances, and stays inside the text |
| Lexer.EmitAdvances | lexer.c:21-33 | an emitted token is appended after those already in the list |
| Lexer.SkipAdvances | lexer.c:48-59 | blanks, newlines and comments add no token |
| Lexer.FailStops | lexer.c:244-275 | a failing turn fails the whole scan, whatever tokens came before |
| Lexer.Lexer.constructor | lexer.c:9-12 | an empty token list, on line 1 |
| Lexer.Lexer.AddTk | lexer.c:21-33 | appends a token with the code and the current line; the line is unchanged |
| Lexer.Lexer.ScanChar | lexer.c:171-185 | appends the one-character CHAR token, or fails as the scan turn does |
| Lexer.Lexer.ScanString | lexer.c:186-203 | appends the STRING token with the text up to the next `"`, or fails as the scan turn does |
| Lexer.Lexer.ScanWord | lexer.c:209-238 | appends the keyword or ID token the scan turn emits |
| Lexer.Lexer.ScanNumber | lexer.c:239-289 | appends the INT or DOUBLE token the scan turn emits, or fails with its error |
| Lexer.Lexer.ScanOperator | lexer.c:63-170 | appends the punctuation or operator token the scan turn emits, or fails on a lone `&` or `\|` |
| Lexer.Lexer.Tokenize | lexer.c:43-311 | the scanner loop computes the scan function: the tokens appended to the list, or the failure |
| LexerProperties.NumberRunSound | lexer.c:244-275 | the text of a number run has at most one `.`, followed by a digit, and at most one exponent, followed by a digit or by a sign and a digit; the result records whether a dot or exponent was seen |
| LexerProperties.ValidNumberCons | lexer.c:244-275 | a valid number stays valid with one more leading character that meets the dot and exponent rules |
| LexerProperties.StringStepWellFormed | lexer.c:186-203 | a string token records the current line and carries text without a `"` |
| LexerProperties.WordStepWellFormed | lexer.c:209-238 | a word always yields one token on the current line: a keyword, or an ID whose text is an identifier |
| LexerProperties.StepWellFormed | lexer.c:63-289 | every emitted token is on the current line, is not END, and carries the text its code calls for |
| LexerProperties.LexEndsWithEnd | lexer.c:60-62 | a successful scan ends with END, and END occurs nowhere else |
| LexerProperties.EndStaysLast | lexer.c:21-33 | appending a non-END token before a list ending in END keeps END last and unique |
| LexerProperties.LexTokensWellFormed | lexer.c:43-311 | every token of a successful scan carries the text its code calls for |
| LexerProperties.LexLinesInOrder | lexer.c:21-33 | tokens are in source order: their lines never decrease and none is before the starting line |
| LexerProperties.NewlinesCountOnce | lexer.c:52-59 | `\r\n`, a lone `\r` and `\n` each advance the line by exactly one and emit nothing |
| LexerProperties.TwoCharOperators | lexer.c:107-160 | `<=`, `>=`, `==` and `!=` are one token when `=` follows, otherwise `<`, `>`, `=` and `!`; `&&` and `\|\|` are one token; a lone `&` or `\|` fails |
| LexerProperties.Comments | lexer.c:161-170 | `//` skips to the newline without passing it and emits nothing; a single `/` emits DIV |
| LexerProperties.Words | lexer.c:209-238 | a letter or `_` starts a maximal run, which is a keyword token or an ID carrying exactly that text |
| LexerProperties.KeywordsAreEleven | lexer.c:213-237 | exactly the eleven keywords are recognised |
| LexerProperties.NumberKind | lexer.c:281-289 | a number is DOUBLE exactly when its text has a `.` or an exponent, INT otherwise, and carries its source text |
| LexerProperties.Literals | lexer.c:171-203 | `''` and a missing closing `'` fail, a char literal is exactly one character, a string is the text up to the next `"`, and reaching the terminator first fails |
| LexerProperties.SignInsideNumber | lexer.c:244 | `5-3` scans as one INT token whose text is `5-3` |
| LexerProperties.TwoCharOperatorExample | lexer.c:124-133 | `a<=b` scans as ID, LESSEQ, ID, END |
| LexerProperties.NoDigitAfterDotExample | lexer.c:250-253 | `3.` fails: no digit after the dot |
| LexerProperties.TwoDotsExample | lexer.c:246-249 | `3.1.2` fails: a second dot |
| LexerProperties.ExponentErrorExamples | lexer.c:261-270 | `1e` fails with no digit after the exponent, and `1e+` with no digit after the sign |
| LexerProperties.LoneAmpersandExample | lexer.c:154-160 | a lone `&` fails |
| LexerProperties.DoubleExample | lexer.c:281-284 | `3.14e2` scans as one DOUBLE token |
| LexerProperties.LineExample | lexer.c:52-59 | after `\r\n` the next token is on line 2 |
| Parser.EndIsLast | parser.c:812-823 | in the lexer's token list a token is END exactly when it is the last one |
| Parser.TokensOkIntro | parser.c:812-823 | a list whose only END is its last token is a token list the parser accepts |
| Parser.LexedTokensOk | main.c:9-20 | what the lexer delivers is a token list the parser accepts |
| Parser.StructClosed | parser.c:72-98 | a struct definition with its domain dropped leaves exactly one new struct in the current domain, with its members at their offsets |
| Parser.Parser.constructor | main.c:9-20 | the parser starts at the first token with no owner |
| Parser.Parser.Consume | parser.c:26-33 | advances by exactly one token and records it exactly when the current token has the code; otherwise nothing changes |
| Parser.Parser.ScalarBase | parser.c:39-50 | matches exactly on `int`, `double` or `char`, consumes that one token and gives its base type; on no match the cursor stays; `n` is -1 |
| Parser.Parser.TypeBase | parser.c:36-64 | does not match exactly when no type starts here; after a `struct` not followed by an ID the cursor stays one token on (the `struct` is consumed), on any other non-type token it does not move; fatal exactly on `struct ID` with no such name in scope, at the line of the token after the ID; a match covers one token (two for `struct ID`) and gives int, double, char or the struct found innermost-first; `n` is always -1 |
| Parser.Parser.StructBase | parser.c:51-62 | the `struct` arm alone: does not match unless `struct ID` starts here (the `struct` stays consumed), is fatal exactly when that struct is undefined, and otherwise covers two tokens and gives the struct's type |
| Parser.Parser.StructType | parser.c:51-62 | no ID here: no match and the cursor stays; an ID naming no struct in scope is fatal at the next token's line; otherwise one token is consumed and the type is that struct, found innermost-first |
| Parser.Parser.ArrayDecl | parser.c:150-167 | `[N]` sets n to the literal's value, `[]` sets n to 0, a missing `]` is fatal, and no `[` leaves the cursor and type unchanged |
| Parser.Parser.Expr | parser.c:439-446 | an expression is recognised exactly when the current token can start one; on no match the cursor does not move, and on a match it advances |
| Parser.Parser.ExprAssign | parser.c:448-464 | same as `Expr`, with the unary-then-`=` attempt rewound when no `=` follows |
| Parser.Parser.ExprOr | parser.c:466-475 | matches exactly when the current token can start an expression, and a match advances |
| Parser.Parser.ExprOrSecondary | parser.c:477-489 | without `\|\|` it matches and leaves the cursor unchanged; `\|\|` with no expression after it is fatal at the next token's line; a match never moves the cursor back |
| Parser.Parser.ExprAnd | parser.c:491-500 | matches exactly when the current token can start an expression, and a match advances |
| Parser.Parser.ExprAndSecondary | parser.c:502-514 | without `&&` it matches and leaves the cursor unchanged; `&&` with no expression after it is fatal at the next token's line; a match never moves the cursor back |
| Parser.Parser.ExprEq | parser.c:516-525 | matches exactly when the current token can start an expression, and a match advances |
| Parser.Parser.ExprEqSecondary | parser.c:527-545 | without `==` or `!=` it matches and leaves the cursor unchanged; either operator with no expression after it is fatal at the next token's line; a match never moves the cursor back |
| Parser.Parser.ExprRel | parser.c:547-556 | matches exactly when the current token can start an expression, and a match advances |
| Parser.Parser.ExprRelSecondary | parser.c:558-580 | without a relational operator it matches and leaves the cursor unchanged; an operator with no expression after it is fatal at the next token's line; a match never moves the cursor back |
| Parser.Parser.ConsumeRelOp | parser.c:570 | consumes exactly one token exactly when it is `<`, `<=`, `>` or `>=`; otherwise the cursor stays |
| Parser.Parser.ExprAdd | parser.c:581-590 | matches exactly when the current token can start an expression, and a match advances |
| Parser.Parser.ExprAddSecondary | parser.c:593-610 | without `+` or `-` it matches and leaves the cursor unchanged; either operator with no expression after it is fatal at the next token's line; a match never moves the cursor back |
| Parser.Parser.ExprMul | parser.c:611-620 | matches exactly when the current token can start an expression, and a match advances |
| Parser.Parser.ExprMulSecondary | parser.c:622-640 | without `*` or `/` it matches and leaves the cursor unchanged; either operator with no expression after it is fatal at the next token's line; a match never moves the cursor back |
| Parser.Parser.ExprCast | parser.c:732-752 | a cast or a unary expression matches exactly when the current token can start an expression; a `(` not followed by a type is rewound; `(` and a type followed by neither `[` nor `)` is fatal |
| Parser.Parser.CastTail | parser.c:736-745 | after the cast's `(`: no type here gives no match; a type followed by neither `[` nor `)` is fatal; a match advances |
| Parser.Parser.ExprUnary | parser.c:642-662 | matches exactly when the current token can start an expression; on no match the cursor stays, and a match advances; `-` or `!` with no expression after it is fatal at the next token's line, naming that operator |
| Parser.Parser.ExprPostfix | parser.c:754-763 | matches exactly when the current token can start a primary expression |
| Parser.Parser.ExprPostfixSecondary | parser.c:664-688 | without `[` or `.` it matches and leaves the cursor unchanged; `[` with no expression after it is fatal, and so is `.` with no ID after it, each at the next token's line; a match never moves the cursor back |
| Parser.Parser.ExprPrimary | parser.c:766-809 | an ID with optional call arguments, a literal or a parenthesised expression; matches exactly when the current token starts one of these, and a match advances; `(` with no expression after it is fatal; `ID (` followed by neither an expression nor `)` is fatal at the line of the token after `(` |
| Parser.Parser.IdRest | parser.c:769-783 | after the ID: without `(` it matches and the cursor stays; `(` followed by neither an expression nor `)` is fatal |
| Parser.Parser.CallArgs | parser.c:770-781 | the arguments after `ID (`: success means the last token consumed was `)`; a first token that neither starts an expression nor is `)` is fatal at its line |
| Parser.Parser.ConsumeLiteral | parser.c:786-797 | consumes exactly one token exactly when it is an INT, DOUBLE, CHAR or STRING literal; otherwise the cursor stays |
| Parser.Parser.ParenRest | parser.c:798-805 | after `(`: no expression is fatal at that token's line; success means the last token consumed was `)` |
| Parser.Parser.DeclareInOwner | parser.c:124-135 | the variable takes the owner's next slot (the local count, or the struct's size so far) and is added to its locals or members |
| Parser.Parser.DeclareVariable | parser.c:118-137 | fatal exactly when the name is already in the current domain; otherwise the variable is appended with its type, and with storage when global |
| Parser.Parser.VarDef | parser.c:106-148 | matches exactly when a type starts here; on no match nothing changes; a type without a name after it is fatal; on a match one variable is declared whose name is the ID after the type and whose base type is the one those tokens name; with `[N]` its n is N's value, with no array part -1 (never `[]`), and the last token consumed is `;` |
| Parser.Parser.VarDefRest | parser.c:110-144 | after the type: no ID is fatal at that token's line; success means the tokens were exactly `ID [ INT ] ;` (n is the INT's value) or `ID ;` (n is -1), the cursor is just past the `;`, and the variable added has that ID's name and the given base type; so `[]` or a missing `;` never succeeds |
| Parser.Parser.VarTail | parser.c:112-141 | after the name: success means the tokens were `[ INT ] ;` (n is the INT's value) or `;` (n is -1), the last token consumed is `;`, and the variable added has the given name and base and a nonzero n |
| Parser.Parser.VarDims | parser.c:112-115 | the array part of a variable: `[ INT ]` covers three tokens and gives n the INT's value, no `[` leaves the cursor and the scalar type, and success never gives n 0 (`[]` is fatal) |
| Parser.Parser.VarEnd | parser.c:116-141 | no `;` is fatal at its line; success consumes exactly the `;` and adds the variable with the given name and type |
| Parser.Parser.AddParam | parser.c:307-308 | the parameter is appended to the current domain and to the owner's parameters |
| Parser.Parser.DeclareParameter | parser.c:297-309 | fatal exactly when the name is already in the current domain; otherwise the parameter is numbered after the earlier ones and, when the incoming n is -1 or 0 (the only values a parameter reaches it with), its n becomes the address width (`sizeof(void*)`) |
| Parser.Parser.FnParam | parser.c:288-316 | matches exactly when a type starts here; on no match nothing changes; a type without a name after it is fatal; a match declares one parameter named by the ID after the type, with the base type those tokens name and n set to the address width (`sizeof(void*)`) |
| Parser.Parser.ParamRest | parser.c:292-312 | after the parameter's type: no ID is fatal; a match declares one parameter named by that ID, with the given base type and n set to the address width (`sizeof(void*)`) |
| Parser.Parser.OpenOwner | parser.c:75-80 | the definition's symbol is appended to the current domain, becomes the owner, and a new domain is pushed for its body |
| Parser.Parser.VarDefs | parser.c:81-86 | repeated variable definitions in the owner's body: a valid step of declarations |
| Parser.Parser.StructMembers | parser.c:81-97 | the member definitions, `}` and `;` of a struct: a valid step of declarations; success means the last two tokens consumed were `}` and `;` |
| Parser.Parser.StructDefRest | parser.c:72-98 | fatal on redefinition; otherwise exactly one struct is added to the current domain, with its members at their offsets, and the owner is cleared |
| Parser.Parser.StructDef | parser.c:66-104 | does not match, with nothing changed, exactly when the token here is not `struct` or `struct ID` is not followed by `{`; `struct` without a name after it is fatal at the next token's line (parser.c:100); a match adds exactly one struct of that name |
| Parser.Parser.NextParam | parser.c:196-206 | without `,` it does not match and nothing changes; `,` followed by something that is not a parameter is fatal at the line after the comma; a match adds exactly one parameter, to the current domain and to the owner's parameters |
| Parser.Parser.FnParams | parser.c:189-207 | the comma-separated parameters, each numbered after the earlier ones |
| Parser.Parser.ParamList | parser.c:189-209 | parameters then `)`: success means the last token consumed was `)` and the parameters were declared in order |
| Parser.Parser.FnParamsAndBody | parser.c:208-220 | after the parameters, a body in the same domain; then the domain is dropped, the owner cleared, and only the function changed |
| Parser.Parser.FnDefRest | parser.c:239-280 | fatal at the current line when the name is already in the current domain; on success exactly one function with that name and return type is added, with locals and parameters numbered |
| Parser.Parser.VoidFnDef | parser.c:173-231 | after `void`: no ID is fatal at its line, an ID without `(` is fatal at the next line, and a name already in the current domain is fatal; success adds exactly one function named by that ID, returning void with n -1 |
| Parser.Parser.FnDef | parser.c:169-283 | does not match, with nothing changed, unless `void` or a type starts here; after `void` a missing name or `(` is fatal, after a type a missing name is fatal, and a redefinition is fatal; a match adds exactly one function whose name is the ID after the return type and whose type is `void` or the base type those tokens name, with n -1 |
| Parser.Parser.TypedFnDef | parser.c:232-282 | no match with nothing changed unless a type starts here; a type without a name is fatal; a name already in the current domain is fatal; a match adds exactly one function named by the ID after the type, with that base type and n -1, and `(` after the name |
| Parser.Parser.TypedFnRest | parser.c:234-281 | after the return type: no ID is fatal, a name already in the current domain is fatal, no `(` after the name gives no match with the cursor back at the type; a match adds exactly one function named by that ID, with the given type |
| Parser.Parser.Condition | parser.c:353-356 | no expression here is fatal; success means the expression covered can be a scalar and the last token consumed was `)` |
| Parser.Parser.StmIf | parser.c:351-372 | matches exactly when `if (` starts here; only the function's locals and inner domains change |
| Parser.Parser.Branch | parser.c:357-366 | no statement here is fatal at the current line; a match advances and changes only the function's locals and inner domains |
| Parser.Parser.IfRest | parser.c:353-371 | condition, branch and optional else of an `if` |
| Parser.Parser.ElsePart | parser.c:358-364 | without `else` it succeeds and nothing changes; `else` without a statement after it is fatal at the line after `else` |
| Parser.Parser.StmWhile | parser.c:374-389 | matches exactly when `while (` starts here; only the function's locals and inner domains change |
| Parser.Parser.WhileRest | parser.c:376-387 | condition and body of a `while` |
| Parser.Parser.ReturnValue | parser.c:392-403 | a value is read exactly when the function is not void and an expression starts here; that value is scalar and convertible to the return type |
| Parser.Parser.ReturnTail | parser.c:392-406 | after `return`: success means the last token consumed was `;`, and `;` comes right after `return` exactly when the function returns void |
| Parser.Parser.StmReturn | parser.c:391-407 | matches exactly at `return`; it succeeds with `;` right after `return` exactly when the function returns void; success means the last token consumed was `;` |
| Parser.Parser.StmExpr | parser.c:408-413 | matches exactly when an expression starts here, and on no match the cursor stays; success means the last token consumed was `;` |
| Parser.Parser.StmSimple | parser.c:391-413 | matches exactly at `return` or where an expression starts; on no match the cursor stays; success means the last token consumed was `;` |
| Parser.Parser.StmNested | parser.c:347-389 | matches exactly at `{`, `if (` or `while (`; on no match nothing changes; a match changes only the function's locals and inner domains |
| Parser.Parser.Stm | parser.c:344-415 | matches exactly when a statement starts here; on no match nothing changes; a statement that starts with `return` or an expression ends with the `;` it consumed last |
| Parser.Parser.BlockItem | parser.c:423-427 | a variable definition or a statement; on no match nothing changes |
| Parser.Parser.BlockItems | parser.c:423-427 | the items of a block: a valid step inside the function body |
| Parser.Parser.StmCompound | parser.c:418-437 | matches exactly at `{`; with a new domain, that domain is pushed and dropped again, so the current domain is unchanged |
| Parser.Parser.BlockRest | parser.c:423-433 | items then `}`: success means the last token consumed was `}` and only the function's locals and inner domains changed |
| Parser.Parser.InnerBlock | parser.c:420-433 | a block in a domain of its own leaves the enclosing domain as it was |
| Parser.Parser.Unit | parser.c:812-823 | definitions followed by END: success means every token up to END was consumed |
| Parser.Parser.Parse | parser.c:825-828 | a successful parse consumed the whole token list through END |

## Left out

- main.c and `loadFile` are not part of this model. They drive the process and read the file. `Parser.LexedTokensOk` states what main.c relies on when it passes the token list to the parser.
- The printing routines are left out because they only print state: `showTokens` (lexer.c:313-438) and `showNamedType`, `showSymbol` and `showDomain` (ad.c:124-189).
- Memory management is left out: `safeAlloc`, `free`, `freeSymbol` and `freeSymbols`. A global's `varMem` is the flag `hasStorage`. Dropping a domain removes the last domain from the stack.
- The values of DOUBLE tokens are left out, because `atof` is floating-point conversion. Tokens keep their source text. INT tokens keep their text too, and `Tokens.Atoi` gives the value `atoi` reads from it.
- The token's union of `i`, `d` and `text` is one `text` field. It is empty for codes that carry nothing.
- `err` and `tkerr` print a message and call `exit`. Here they are a `Failed` or `Fatal` result. The message is a `Diag` value, not the C string.
- The type-checking oracle (`canBeScalar`, `convTo`, and the `Ret` values of `rCond` and `rExpr`) comes from a module that is not part of this model. The parser receives `canBeScalar` and `convTo` as function parameters over the token span of the expression. A condition or returned value is checked through them, but the rules inside them are not modelled.
- The branch at lexer.c:290-306 is left out because it cannot be reached: letters, `"` and `'` are handled earlier.
- The check at lexer.c:277-280 is left out because it cannot fire: a `.` never ends the number loop.
- `exprSecondaryary` (parser.c:690-730) is left out because nothing calls it.
- The commented-out `fnParam` (parser.c:318-342) is left out because it is not compiled.
- The function pointer of `addExtFn` is left out because it is foreign code; the symbol has no such field.
- A struct type refers to its defining symbol through a pointer (`t->s`). Here a struct type holds a snapshot of the struct's name and member list, taken at the point of use. A struct's own symbol has that type with its members as they grow.
- Self-referential structs: the model does not reproduce what C does with them. In `struct S { int a; struct S b; int c; };`, parser.c:55 finds S itself, because parser.c:75 adds it before the members are read. `typeSize` then recurses through S without end (ad.c:21-22). The model's snapshot holds S's members so far, so b gets size 4 and c gets offset 8.
- No kind check on `struct x`: parser.c:55-57 accepts any symbol named x, even a variable or a function, and C then reads the `structMembers` of the symbol's union. In the model `Ad.Members` takes the member list from the symbol's own type: a variable of struct type gives that struct's members, and any other non-struct symbol gives none.
- `addFnParam` and the owner updates in parser.c append to lists inside a symbol in place. Here the owner is replaced in the domain stack by its updated value (`Scopes.Replace`). `Ad.AddFnParam` returns the updated function instead of changing it.
- C `int` overflow in sizes, `atoi` and line numbers is left out: integers are unbounded. `isalpha`, `isalnum` and `isdigit` are the ASCII classes.
- A `'` as the last character of the input is left out: the C code reads past the terminator. Here positions past the end read as the terminator.
- In the `void` branch of `fnDef`, `t.n` is never initialised. The model gives a void function's type n = -1.
- The `fnDef` path that finds no body after `)` rewinds without dropping the pushed domain or clearing `owner` (parser.c:263-281). This is modelled as written, so no domain balance is stated over it.
- `Parser.Parser.consumed`, the last consumed token, is set by `Consume` as in parser.c. It is only specified there, because no other matcher promises anything about it.
- Parser.Parser.StmReturn: the scalar and convertibility checks on the returned value are stated by `Parser.Parser.ReturnValue`, not repeated in `StmReturn`'s contract.
- Parser.Parser.Parse: only the successful outcome is stated. A `Fatal(SyntaxError)` when `unit` stops before END is in the body but not in the contract.
- Parser.Parser.Unit: it states where the cursor ends, not that the domain stack comes back balanced, because of the `fnDef` leak above.
- Parser.Parser.Expr and the other `expr*` matchers: they state when they match and that they advance, but not which tokens form the expression. No syntax tree is built by parser.c either.
- Parser.Parser.ExprAssign, Parser.Parser.ExprPostfixSecondary, Parser.Parser.ExprCast, Parser.Parser.CallArgs and Parser.Parser.ExprPrimary: some fatal outcomes sit in their bodies but not in their contracts, because they depend on how far the expression before them reaches. These are `=` with no right-hand side (parser.c:455), `[ expr` without `]` (parser.c:673), a missing `)` after a cast type with an array part (parser.c:743), `,` with no expression after it (parser.c:774), and a missing `)` after the call arguments or the parenthesised expression (parser.c:781, 803).
