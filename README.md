# srzs-lang core in Dafny

A verified model of the core of srzs-lang, a small scripting language written in Rust. The core has three parts:

- **The lexer driver** (`Lexer::lex`, `lex_trim_result`). It turns the result stream of the `logos` matcher into positioned tokens and E001 errors. It then appends an `Eof` token and drops newlines and spaces.
- **The recursive-descent parser** (`Parser`). A cursor moves over the token list. Each `let` or `fn` statement is appended to a `Module` body. A failing statement appends exactly one diagnostic and ends the parse.
- **The bytecode interpreter** (`Runtime::run_byte`). It walks a list of scopes. `Push`, `Pull`, `Pop` and `Mov` are applied to one global value list by index, and `Add`/`Sub`/`Mul`/`Div` are still `todo!()`.

It also covers the closed data types these three use: token types and their spellings, the parse tree, and bytecode values and instructions.

The source changes state in place, and the model keeps that form:

- `Interpreter.Runtime`, `Lexing.Lexer` and `Parsing.Parser` are classes whose methods update their fields in loops.
- Each method is proved against a pure function of the old state: `RunScopes`, `Scan`/`Trim`, and the `ParserSpec` functions.
- The lemmas state what the source promises in terms of those functions.

Modules:

- `wrappers.dfy` (`Option`, `Result`)
- `tokens.dfy` (`Tokens`)
- `handlers.dfy` (`Handlers`)
- `parse_nodes.dfy` (`ParseNodes`)
- `bytecode.dfy` (`Bytecode`)
- `runtime.dfy` (`Interpreter`)
- `lexer.dfy` (`Lexing`)
- `parser_spec.dfy` (`ParserSpec`)
- `parser.dfy` (`Parsing`)

Modelling choices:

- **Panics.** A Rust panic in `run_byte` is modelled as a `Panicked(fault, stack)` outcome. The panics are an `unwrap` on a missing element, `Vec::remove` out of range, and `todo!`.
- **Parser cursor.** The parser's peekable iterator becomes an index into an immutable token sequence.
- **`logos` input.** The lexer receives the stream `logos` would yield: one `RawResult` per match or unmatched slice, with its byte span.
- **Parse outcomes.** `parse_block_statement` never returns on a token other than `}` or Eof after `{`. The model reports this as a third outcome, `Spins`, next to success and failure.

## Model

| member | source | states |
|---|---|---|
| Tokens.NewToken | srzs-lang/utils/src/types/tokens.rs:234-242 | A token keeps the given type and text, and has the given line and column as its position |
| Tokens.SpellingSelectsItsType | srzs-lang/utils/src/types/tokens.rs:8-225 | Every fixed spelling in the token table selects exactly the type it is listed under (e.g. "let" is KwLet, "->" is OpSetOrAcess, "\0" is Eof), and no spelling starts with a digit |
| Tokens.SelectedTypeListsSpelling | srzs-lang/utils/src/types/tokens.rs:8-225 | Conversely, a slice that selects a type is one of the spellings listed for that type |
| Tokens.LogicalOperatorsSpelled | srzs-lang/utils/src/types/tokens.rs:143-154 | "!" and "not" both give OpNot, "&" and "and" give OpAnd, "\|" and "or" give OpOr |
| Tokens.OrderingsSpelled | srzs-lang/utils/src/types/tokens.rs:156-164 | "<" is OpSmallerThan, ">" is OpGreaterThan and ">=" is OpSmallerOrEqualsThan, with the swapped name kept as written |
| Tokens.EqualitiesSpelled | srzs-lang/utils/src/types/tokens.rs:166-173 | "<=" is OpGreaterOrEqualsThan (swapped name kept), "==" is OpEquals, "!=" is OpNotEquals |
| Tokens.NoSpellingIsNumber | srzs-lang/utils/src/types/tokens.rs:205-209 | No fixed spelling is a run of digits, so the Number class never clashes with the table |
| Tokens.ClassifiedIdentifier | srzs-lang/utils/src/types/tokens.rs:205-212 | A whole slice is classified Identifier exactly when it fits [a-zA-Z_][a-zA-Z0-9_]* and is not a fixed spelling |
| Tokens.ClassifiedNumber | srzs-lang/utils/src/types/tokens.rs:208-209 | A whole slice is classified Number exactly when it is a non-empty run of digits |
| Tokens.UnderscoreAndKeywordsOutrankIdentifier | srzs-lang/utils/src/types/tokens.rs:205-212 | "_" fits the Identifier class but is SomehingElse through its priority; keywords fit the class but keep their own types |
| ParseNodes.StartOf | srzs-lang/utils/src/types/parse_nodes.rs:4-74 | A statement has a start position exactly when it is neither VariableAlteration nor FunctionCall |
| ParseNodes.Indices | srzs-lang/utils/src/types/parse_nodes.rs:95-104 | Every access chain carries at least one index |
| ParseNodes.ChainOfParts | srzs-lang/utils/src/types/parse_nodes.rs:95-104 | Every ArrayAcess chain ends in a named Acess: rebuilding from its base name and indices gives the chain back |
| ParseNodes.PartsOfChain | srzs-lang/utils/src/types/parse_nodes.rs:95-104 | Building a chain from a name and a non-empty index list, then taking it apart, gives back that name and that list |
| ParseNodes.ChildrenAreSmaller | srzs-lang/utils/src/types/parse_nodes.rs:107-135 | Expression trees are finite: every child of a node is strictly smaller than the node |
| Bytecode.ElementsNestLess | srzs-lang/utils/src/backend/bytecode.rs:2-7 | Every element of an Array value nests strictly less deeply than the array |
| Interpreter.Insert | srzs-lang/src/runtime/mod.rs:35 | Vec::insert: the value lands at the index, earlier elements stay, later ones shift up by one |
| Interpreter.Remove | srzs-lang/src/runtime/mod.rs:53 | Vec::remove: the element at the index leaves, earlier elements stay, later ones shift down by one |
| Interpreter.Runtime.constructor | srzs-lang/src/runtime/mod.rs:18-24 | Empty global stack, empty (locals, args) pair, no saved stacks; establishes Valid (the global stack is a Stack::Global) |
| Interpreter.Runtime.Execute | srzs-lang/src/runtime/mod.rs:31-73 | One instruction changes the global stack as Step says and reports its fault; the global stack stays a Stack::Global (Valid); the local stack and stack memory are unchanged |
| Interpreter.Runtime.RunByte | srzs-lang/src/runtime/mod.rs:26-79 | The outcome is RunScopes over the scopes in order; the global stack ends as that outcome's stack and stays a Stack::Global (Valid); the local stack and stack memory are never touched |
| Interpreter.NodesPanicPersists | srzs-lang/src/runtime/mod.rs:30-74 | Once a prefix of a scope's code panics, the rest of the code is not run |
| Interpreter.ScopesPanicPersists | srzs-lang/src/runtime/mod.rs:27-78 | Once a prefix of the scopes panics, the later scopes are not run |
| Interpreter.PanicInScope | srzs-lang/src/runtime/mod.rs:27-78 | A panic inside a Global scope is the outcome of the whole run |
| Interpreter.PushAppends | srzs-lang/src/runtime/mod.rs:32-39 | Push appends its value to the global stack and leaves every earlier element as it was |
| Interpreter.PullCopies | srzs-lang/src/runtime/mod.rs:40-48 | Pull((scope, i)) with i in range appends a copy of s[i]; the scope component plays no part |
| Interpreter.PopRemoves | srzs-lang/src/runtime/mod.rs:50-56 | Pop(i) with i in range gives s[..i] + s[i+1..]: one shorter, the multiset minus s[i] |
| Interpreter.MovRotates | srzs-lang/src/runtime/mod.rs:58-67 | Mov(i) with i in range gives s[..i] + s[i+1..] + [s[i]], a permutation of s, and the identity when i is the top index |
| Interpreter.PopUndoesPull | srzs-lang/src/runtime/mod.rs:40-56 | Pull(i) followed by Pop of the new top gives back the starting stack |
| Interpreter.PopUndoesPush | srzs-lang/src/runtime/mod.rs:32-56 | Push followed by Pop of the new top gives back the starting stack |
| Interpreter.PanicsExactly | srzs-lang/src/runtime/mod.rs:43-72 | An instruction panics if and only if it is arithmetic (todo!) or indexes the global stack past its end; a panic leaves the stack as it was and reports the index and length |
| Interpreter.LocalStackUntouched | srzs-lang/src/runtime/mod.rs:37-66 | On a Local stack every non-arithmetic instruction does nothing |
| Interpreter.RunNodesAppend | srzs-lang/src/runtime/mod.rs:30-74 | Running a + b is running a, then running b from where a stopped, unless a panicked |
| Interpreter.RunScopesRunsGlobalCode | srzs-lang/src/runtime/mod.rs:27-78 | run_byte is one pass over the instructions of the Global scopes in list order; Function scopes contribute nothing |
| Interpreter.HeightAccounting | srzs-lang/src/runtime/mod.rs:32-67 | A run from a global stack keeps a global stack, and when it does not panic its height is the start height plus one per Push or Pull, minus one per Pop |
| Interpreter.SampleProgram | srzs-lang/src/runtime/mod.rs:27-56 | From an empty stack, Push 10, Push 2, Push 3, Pull(Global, 0), Pop(2) ends running with [10, 2, 10] |
| Lexing.OrderedPrefix | srzs-lang/utils/src/frontend/lexer.rs:36 | Every prefix of an ordered logos stream is ordered |
| Lexing.OrderedSpans | srzs-lang/utils/src/frontend/lexer.rs:36 | In an ordered stream each span is well formed and starts no earlier than the previous one ends |
| Lexing.Scan | srzs-lang/utils/src/frontend/lexer.rs:32-84 | The line start never passes the end of the last span, so no column subtraction underflows, and token_position's line always equals the newline count |
| Lexing.Trim | srzs-lang/utils/src/frontend/lexer.rs:101-113 | The result is no longer than the input and holds no NewLine or Space token |
| Lexing.Lexer.constructor | srzs-lang/utils/src/frontend/lexer.rs:24-29 | No tokens, no errors |
| Lexing.LexOne | srzs-lang/utils/src/frontend/lexer.rs:36-82 | One pass of lex's loop body from the current extras and position: the new line count, line start and position, and the token or E001 error it appends, are exactly one Step of the scan |
| Lexing.Lexer.Lex | srzs-lang/utils/src/frontend/lexer.rs:32-98 | Errors grow by exactly Scan's errors; tokens become Trim of the old tokens, the scanned tokens and an Eof token at the last token position |
| Lexing.Lexer.LexTrimResult | srzs-lang/utils/src/frontend/lexer.rs:101-113 | Tokens become Trim of the old tokens; errors are unchanged |
| Lexing.TrimAppend | srzs-lang/utils/src/frontend/lexer.rs:104-110 | Trimming distributes over concatenation, so the kept tokens keep their relative order |
| Lexing.TrimKeeps | srzs-lang/utils/src/frontend/lexer.rs:104-110 | Every token that is not a newline or space survives trimming |
| Lexing.TrimTakesFromInput | srzs-lang/utils/src/frontend/lexer.rs:104-110 | Every token after trimming was in the input |
| Lexing.TrimWithoutLayout | srzs-lang/utils/src/frontend/lexer.rs:104-110 | Trimming a sequence without layout tokens changes nothing |
| Lexing.TrimIdempotent | srzs-lang/utils/src/frontend/lexer.rs:101-113 | lex_trim_result is idempotent |
| Lexing.KindsAndValues | srzs-lang/utils/src/frontend/lexer.rs:49-54 | Position by position, the (type, text) pairs of a token list |
| Lexing.ScanTracksLines | srzs-lang/utils/src/frontend/lexer.rs:6-9 | The line count and token_position's line are the number of newlines seen; the line start is the end of the last newline |
| Lexing.StepKeepsMatch | srzs-lang/utils/src/frontend/lexer.rs:38-57 | A matched result adds one token with its type and slice; an unmatched one adds no token |
| Lexing.ScanKeepsMatches | srzs-lang/utils/src/frontend/lexer.rs:36-84 | Before Eof, the tokens are the matched results, in order, with their types and slices; so one token per Ok result |
| Lexing.ScanReportsUnmatched | srzs-lang/utils/src/frontend/lexer.rs:59-82 | One E001 error per unmatched slice, in order, each issued by the Lexer and quoting its slice |
| Lexing.UnmatchedPosition | srzs-lang/utils/src/frontend/lexer.rs:58-81 | An unmatched slice appends exactly one error after the earlier ones: an E001 script error from the Lexer quoting the slice, at line = newlines seen so far and column = span start minus the end of the last newline |
| Lexing.TokenPosition | srzs-lang/utils/src/frontend/lexer.rs:41-45 | A NewLine token opens the next line at column 0; any other token is on the current line at its start offset minus the end of the last newline |
| Lexing.EofPosition | srzs-lang/utils/src/frontend/lexer.rs:34-95 | Eof's position is that of the last matched token, or (0, 0) when there is none |
| Lexing.TokenLinesSorted | srzs-lang/utils/src/frontend/lexer.rs:41-45 | Token lines never pass the line count and are non-decreasing in stream order |
| Lexing.LexResult | srzs-lang/utils/src/frontend/lexer.rs:86-113 | After lex: no layout token, the earlier and the scanned tokens trimmed in order, and Eof last |
| Lexing.LexLetMutX | srzs-lang/utils/src/frontend/lexer.rs:32-113 | On "let mut x" the result is let, mut and x at columns 0, 4 and 8, then Eof at (0, 8); no error |
| Lexing.ScanNewLineThenUnknown | srzs-lang/utils/src/frontend/lexer.rs:36-84 | On "a\n @" the newline moves to line 1; the unmatched slice gives one error at line 1, column 1 |
| Lexing.LexUnmatchedSlice | srzs-lang/utils/src/frontend/lexer.rs:32-113 | On "a\n @" the result is a, then Eof at (1, 0), and the error at line 1, column 1 |
| ParserSpec.Next | srzs-lang/utils/src/frontend/parser.rs:72-77 | advance stays on Eof and otherwise moves one token on; on a stream ending in Eof it never passes it |
| ParserSpec.ExpectedOrError | srzs-lang/utils/src/frontend/parser.rs:109-120 | Ok exactly when the found token has the wanted type, and then it is that token; otherwise the expected_error diagnostic for the expectation and the token. Parsing.Parser calls it at each place the source calls expected_or_error (parser.rs:109, 206, 222, 340, 356, 414) and relies on this contract |
| ParserSpec.GetTypeOfTypeKind | srzs-lang/utils/src/frontend/parser.rs:51-69 | get_type gives type b exactly when the token is b's type token, and fails expecting "a type" exactly when the token is no type token |
| ParserSpec.Diags | srzs-lang/utils/src/frontend/parser.rs:96-117 | A failure appends exactly one diagnostic; a success or a spin appends none |
| ParserSpec.LetStatement | srzs-lang/utils/src/frontend/parser.rs:80-185 | A let parse never spins, stays in the stream, and on success moves past `let` onto a token other than Eof |
| ParserSpec.Params | srzs-lang/utils/src/frontend/parser.rs:188-286 | A parameter parse stays in the stream and never spins |
| ParserSpec.ParamsLoop | srzs-lang/utils/src/frontend/parser.rs:202-269 | The loop never spins, stays in the stream, and on success moves past where it started onto a token other than Eof |
| ParserSpec.Block | srzs-lang/utils/src/frontend/parser.rs:288-331 | A block parse stays in the stream, a success moves on to a token other than Eof, and a parsed block is empty |
| ParserSpec.FunctionStatement | srzs-lang/utils/src/frontend/parser.rs:334-439 | A function parse stays in the stream, and on success moves past `fn` onto a token other than Eof |
| ParserSpec.ReturnType | srzs-lang/utils/src/frontend/parser.rs:383-411 | A return-type parse never spins, stays in the stream and never moves back |
| ParserSpec.Statement | srzs-lang/utils/src/frontend/parser.rs:445-447 | The statement parser a leading `fn` or `let` selects stays in the stream, and on success moves onto a token other than Eof |
| ParserSpec.ParseLoop | srzs-lang/utils/src/frontend/parser.rs:442-467 | parse_tokens ends with the cursor in the stream; what it appends is stated by the lemmas below |
| ParserSpec.ParseLoopContinues | srzs-lang/utils/src/frontend/parser.rs:458-465 | A statement that parses is appended, and the loop goes on from the token after it |
| ParserSpec.ParseLoopStops | srzs-lang/utils/src/frontend/parser.rs:458-463 | A statement that fails or spins ends the loop, with its one diagnostic |
| ParserSpec.LetParsesIffShape | srzs-lang/utils/src/frontend/parser.rs:80-185 | A let statement parses to s exactly when its tokens are any first token other than Eof (the dispatch in parse_tokens supplies `let`), then `[mut] name ;` (type Any) or `[mut] name : type ;`, with kind, name and type taken from the tokens and no value |
| ParserSpec.ParamsShapeParses | srzs-lang/utils/src/frontend/parser.rs:202-269 | Parameters `name : type` separated by `,` and closed by `)` parse to those parameters in source order |
| ParserSpec.ParsedParamsHaveShape | srzs-lang/utils/src/frontend/parser.rs:202-269 | Whatever the parameter loop parses was spelled as such a list |
| ParserSpec.FunctionParsesIffShape | srzs-lang/utils/src/frontend/parser.rs:334-439 | A function parses to s exactly when its tokens are any first token other than Eof (the dispatch in parse_tokens supplies `fn`), then `name ( params ) { }` (type Any) or `name ( params ) -> type { }`, with an empty body |
| ParserSpec.LetFailures | srzs-lang/utils/src/frontend/parser.rs:89-183 | A let fails with one diagnostic on a token other than `mut` or a name after `let`, a missing name, a token other than `:` or `;` after the name, a non-type after `:`, or a missing `;` after the type |
| ParserSpec.ParamFailures | srzs-lang/utils/src/frontend/parser.rs:206-268 | An item fails on a missing name, a missing `:`, a non-type, or a separator other than `,` and `)` |
| ParserSpec.TrailingCommaFails | srzs-lang/utils/src/frontend/parser.rs:206-217 | A `,` right before `)` is rejected, since the loop wants another name |
| ParserSpec.ReturnFailures | srzs-lang/utils/src/frontend/parser.rs:383-425 | After `)`, a token other than `->` or `{` fails; after `->` a non-type fails; after the type a token other than `{` fails |
| ParserSpec.BlockOutcomes | srzs-lang/utils/src/frontend/parser.rs:293-330 | A block parses (to no statements) only when `}` follows `{` at once; Eof there fails; any other token spins with the cursor on it |
| ParserSpec.ParseLoopExtends | srzs-lang/utils/src/frontend/parser.rs:442-467 | parse_tokens only appends: body and diagnostics are extended, by at most one diagnostic; a stop without a diagnostic is on Eof or a token that starts no statement |
| ParserSpec.LetRoundTrip | srzs-lang/utils/src/frontend/parser.rs:80-185 | A printed let statement, anywhere in a stream ending in Eof, parses back to itself |
| ParserSpec.FunctionRoundTrip | srzs-lang/utils/src/frontend/parser.rs:334-439 | A printed function declaration, anywhere in a stream ending in Eof, parses back to itself |
| ParserSpec.StatementsParse | srzs-lang/utils/src/frontend/parser.rs:442-467 | Statements that parse one after another up to Eof are all appended, in order, without a diagnostic |
| Parsing.Parser.constructor | srzs-lang/utils/src/frontend/parser.rs:13-25 | Non-empty input; the cursor on the first token, no diagnostics, an empty Module at (0, 0) |
| Parsing.Parser.PushStatement | srzs-lang/utils/src/frontend/parser.rs:27-34 | A Module gets the statement appended to its body; any other tree is left alone |
| Parsing.Parser.GetType | srzs-lang/utils/src/frontend/parser.rs:51-69 | The type the current token names, or the "a type" diagnostic for it |
| Parsing.Parser.Advance | srzs-lang/utils/src/frontend/parser.rs:72-77 | The cursor moves as Next says |
| Parsing.Parser.Report | srzs-lang/utils/src/frontend/parser.rs:96-97 | The diagnostic is appended at the end of errors |
| Parsing.Parser.ParseLetStatement | srzs-lang/utils/src/frontend/parser.rs:80-185 | Returns LetStatement's outcome, leaves the cursor where it says, and appends exactly its diagnostics |
| Parsing.Parser.ParseParam | srzs-lang/utils/src/frontend/parser.rs:206-249 | Returns Param's outcome, cursor and diagnostics |
| Parsing.Parser.ParseParamsStatement | srzs-lang/utils/src/frontend/parser.rs:188-286 | Returns Params' outcome, cursor and diagnostics |
| Parsing.Parser.ParseBlockStatement | srzs-lang/utils/src/frontend/parser.rs:288-331 | Returns Block's outcome (reporting a spin instead of looping), cursor and diagnostics |
| Parsing.Parser.ParseReturnType | srzs-lang/utils/src/frontend/parser.rs:383-411 | Returns ReturnType's outcome, cursor and diagnostics |
| Parsing.Parser.ParseFunctionStatement | srzs-lang/utils/src/frontend/parser.rs:334-439 | Returns FunctionStatement's outcome, cursor and diagnostics |
| Parsing.Parser.ParseReturnTypeAndBody | srzs-lang/utils/src/frontend/parser.rs:376-439 | Returns FunctionRest's outcome, cursor and diagnostics |
| Parsing.Parser.ParseStatement | srzs-lang/utils/src/frontend/parser.rs:445-447 | Returns the outcome, cursor and diagnostics of Statement |
| Parsing.Parser.ParseTokens | srzs-lang/utils/src/frontend/parser.rs:442-467 | Module body, diagnostics, cursor and halting as ParseLoop says from the old state |

## Left out

- The `logos` matching engine: longest match and priorities over regular expressions belong to a foreign library. The lexer takes the result stream as input, and `Tokens.Classify` states only the outcome on a whole slice.
- The lexer's input must be ordered: spans increase and do not overlap, which `logos` guarantees. On such streams the source's `usize` column subtraction cannot underflow.
- `word_callback` (srzs-lang/utils/src/frontend/lexer.rs:12-15) computes two locals and discards them. It changes nothing, so it has no member.
- The text of messages. The `{:?}` Debug formatting of the E001 message and the wording of parser diagnostics are kept abstract, as the slice or expectation they carry.
- `Float` payloads are opaque 32-bit patterns. `Add`/`Sub`/`Mul`/`Div` are `todo!()` in the source and are modelled as faults, with no arithmetic.
- Call frames, and uses of `local_stack` or `stack_memory`, do not exist in the source; they are fields that `run_byte` never touches.
- `src/lib.rs` `load_source` (file I/O) is not part of this model. Neither are the error and message constructors: they only store fields, so they are plain datatypes.
- Parsing.Parser.ParseBlockStatement: where the source loops forever on a token other than `}` or Eof after `{`, the method returns `spins = true`. `ParseTokens` then returns `halts = false`; non-termination is not modelled.
- The checks for `)` and `}` after the parameter and block loops (srzs-lang/utils/src/frontend/parser.rs:272-283, 317-328) can never fail. The loops only exit on that very token or by returning, so these checks have no member.
- Parsing.Parser: the parse methods require a token stream ending in Eof, as `Lexer::lex` produces. On other streams the source's `advance` may unwrap past the end and panic (a stream whose first token starts no statement is left at once without advancing).
- Where the parts of the source disagree, the code is followed:
  - The parser builds `LetDeclaration`/`LetDeclarationKind`, which `parse_nodes.rs` names `VariableDeclaration`/`VarDeclarationKind`; the model uses the latter.
  - The parser's `TypeBool` is the enum's `TypeBoll`.
  - The "a statement" diagnostic that `parse_tokens` builds for any other leading token is discarded, so no diagnostic is added.
- Datatype fields whose names clash across variants are renamed, e.g. `constName`, `forCondition` and `newValue`; the variants keep the source's names and spellings.
