# Verified model of the proxy and its libraries

A Dafny model of the hard parts of this repository, with proofs. It covers three families of
code:

- **TOML** (`src/third/toml`): the lexer with its continuation stack, the parser that replays
  statements into nested tables, the encoder that flattens tables into statements and text,
  and the resolver for fields of embedded structs. The implemented language is TOML v0.2.0.
- **The HTTP tunnel** (`src/proxy`): one TCP connection carried in both directions over numbered
  HTTP requests.
- **seelog** (`src/third/seelog`): the glob matcher, the rolling file writer, the asynchronous
  logger, the format compiler and the buffered writer.

`dafny verify dfyconfig.toml` checks the whole project.

## How the model is built

**Lexer.** `TomlLexer` states each state function by looking ahead (`Step`); `TomlLexerProofs`
proves the invariant of the continuation stack, the contract with the parser and the measure;
`TomlLexerObject` is the program's object with `next`, `backup` and `accept` and a method for each
state function, proved to refine the automaton. `TomlLoops` says on which texts `nextItem` never
returns, `TomlCalm` on which it always does, and `TomlTermination` counts the calls. Characters have
width one. The `nil` state is `Halt`, and `Spins` stands for a call that never returns.

**Parser.** `TomlEscapes`, `Decimal` and `TomlValues` turn items into values; `TomlTables` describes
how statements build nested tables; `TomlContext` proves what statements keep and where the
context goes wrong, and `TomlShadows` and `TomlShadowText` give documents where it does;
`TomlDocument` reads whole documents, `TomlEndings` says how that can end for every input, and
`TomlExits` gives inputs for each bad ending. `TomlParser` and `TomlReader` are the two halves of
the parser object, with the program's loops, proved to compute the same.

**Encoder.** `TomlReplay` gives the statements the encoder writes and proves that the parser undoes
it; `TomlLayout` lays statements out as text; `TomlEncoder` is the encoder object that writes the
text. `TomlArrayText`, `TomlKeyText`, `TomlText`, `TomlHeaderText`, `TomlDocumentText` and
`TomlTextRoundTrip` follow the text through lexer and parser, up to the round trip from table to
text to table; `TomlKeyLines` and `TomlReadExactly` show that it fails for all other keys.
`TomlExpected` gives the lines of two shapes of documents.

**Language.** `TomlChars` lists the classes of characters; `TomlHex`, `TomlStrings` and `TomlNumbers`
say what escapes, strings, dates and floats mean. `TomlLayouts` and `TomlLines` define in which
layouts values and documents may be written, as a grammar without the states of the lexer, and
prove that each is read as what it means; `TomlShapes`, `TomlValueShapes` and `TomlGrammar` prove
that nothing else is read to its end.

**Tunnel.** `Tunnel` is a state machine: every goroutine is a program counter, and a step is one queue
operation, one flag access or one socket or HTTP call. The network may deliver any request that
was sent, any number of times, in any order, or never. `TunnelProofs` has the invariants and the
theorems about whole runs, `TunnelTransport` builds runs that carry any blocks in both directions,
and `TunnelEnds` says what the end of a loop means and builds runs that end. `AsyncLogger`,
`AsyncLoggerProofs` and `AsyncLoggerCalls` treat the asynchronous logger the same way; there the
loop logger's copy of the struct is a second logger with its own mutex and closed flag.

**The rest.** `Glob`, `GlobBorders`, `RollingFiles`, `RollingProofs`, `RollingSizes`, `RollingWriter`,
`GoFormat`, `FormatCompiler`, `FormatVerbs`, `FormatDeviation`, `Formatter`, `BufferedWriter`,
`TypeFields`, `TypeFieldSearch`, `TypeFieldRules` and `TypeFieldNames` hold a specification, its laws,
and the program's loops proved against it;
`Sequences`, `Iteration` and `Ordering` are shared by several parts.

## Where the code does less than one would expect

- The lexer never returns when whitespace starts a table name, or when a multi-line string is not
  closed (`TomlLoops.SpinsExactly`, `TomlExits.BlankNeverReturns`, `TomlExits.UnclosedNeverReturns`).
- A date off the calendar, or a backslash before a carriage return in a multi-line string, ends the
  process (`TomlEndings.EveryInput`, `TomlExits.OffCalendarDies`, `TomlExits.EscapedReturnDies`).
- A value assigned to the name of an implicit table is dropped without an error
  (`TomlContext.AcceptedLine`, `TomlShadows.ValueDropped`).
- Marks of implicit tables are names joined with dots, so a dot inside a quoted name can be taken
  for a separator, and a mark made inside one element of an array of tables is still there in the
  next. Either way a document that a user may write ends in a "BUG" exit (`TomlContext.BugExactly`,
  `TomlShadows.DottedNameBreaksContext`, `TomlShadows.ArrayBreaksContext`).
- The encoder quotes keys without escaping backslashes or ends of lines, so such keys are not read
  back (`TomlKeyLines.LineReadExactly`, `TomlReadExactly.TextReadExactly`, `TomlKeyText.BackslashLost`).
- The resolver for embedded fields counts how often a struct is embedded, not in how many ways it is
  reached, so it returns some fields that are ambiguous in Go (`TypeFieldNames.GoExactly`,
  `TypeFieldNames.AmbiguousReturned`).
- A character zero ends a line behind a statement like an end of line, and one character behind a
  backslash at the end of a line is skipped unread (`TomlGrammar.AcceptedExactly`).
- The glob matcher takes the first occurrence of each text, so it misses some matches of patterns
  whose last text has a border (`GlobBorders.BorderExactly`, `GlobBorders.OverlapMissed`).
- Format strings that mix `%%` with verbs do not print what they say, unless perhaps a digit, point,
  star, bracket or exclamation mark follows behind a symbol (`FormatDeviation.FormatExactly`).
- A buffered write of a message larger than the buffer reports more bytes than the message has,
  unless the buffer is empty (`BufferedWriter.ReportedExactly`).

## Model

| member | source | states |
|---|---|---|
| `TomlLexerProofs.StepKeeps` | src/third/toml/lex.go:182-800 | From every kept configuration, whatever the input, one call of the state function keeps the stack shape, the shape of the pending text and the bounds; an emitted item is of a type the parser accepts where it stands and its text is well formed; the measure (input left, rank of the state) falls; and no error is the lexer's own "no states to pop". |
| `TomlLexerProofs.FetchDelivers` | src/third/toml/parse.go:75-158 | Token contract: for every input and wherever the parser may ask, nextItem delivers only items that the parser expects there, with well-formed text, and leaves the lexer where the parser will stand after it. |
| `TomlLexerProofs.FetchRound` | src/third/toml/lex.go:77-86 | One round of nextItem either leaves what will be fetched unchanged or queues the item that the fetch returns. |
| `TomlLoops.SpinsExactly` | src/third/toml/lex.go:77-86 | From every configuration in which the parser can ask for an item: nextItem does not return if and only if the text ahead, read from the current state function, leads into one of the two loops: a blank at the start of a table name, or a multi-line string whose closing quotes are missing. The condition is a predicate on the text alone. |
| `TomlTermination.ReturnsExactly` | src/third/toml/lex.go:77-86 | Under the same condition no number of calls of state functions yields an item, and otherwise one is yielded after a number of calls bounded by the measure. |
| `TomlCalm.QuietFetch` | src/third/toml/lex.go:77-86 | On an input without three quotes in a row and without a blank behind a bracket or dot, nextItem returns, and leaves a configuration of which the same holds. |
| `TomlTermination.ChannelSuffices` | src/third/toml/lex.go:88-110 | A state function queues at most two items, and only into an empty queue, so the channel of ten never blocks; pop never meets an empty stack. |
| `TomlLexerObject.Lexer.NextItem` | src/third/toml/lex.go:77-86 | The object with next, backup, accept, push, pop and emit fetches exactly the item the automaton fetches, and terminates except in the two loops. |
| `TomlLexerObject.Lexer.constructor` | src/third/toml/lex.go:88-97 | Starts at the top level with a newline added behind the input. |
| `TomlLexerObject.Lexer.Next` | src/third/toml/lex.go:126-138 | Delivers the character ahead, or the end mark without moving; width is exactly the distance moved. |
| `TomlLexerObject.Lexer.Backup` | src/third/toml/lex.go:146-151 | Moves back by the width of the last character read. |
| `TomlLexerObject.Lexer.Accept` | src/third/toml/lex.go:154-160 | Consumes the next character exactly if it is the wanted one, and otherwise leaves the configuration as it was. |
| `TomlLexerObject.Lexer.Peek` | src/third/toml/lex.go:163-167 | Looks one character ahead without changing the configuration. |
| `TomlLexerObject.Lexer.PopState` | src/third/toml/lex.go:103-110 | Returns to the continuation pushed last, or reports that there is none. |
| `TomlLexerObject.Lexer.EmitTrim` | src/third/toml/lex.go:121-124 | Queues the pending text without the blanks around it. |
| `TomlLexerObject.Lexer.LexTop` | src/third/toml/lex.go:182-207 | Its reading, backing up, pushing and emitting amount to the look-ahead step StepTop. |
| `TomlLexerObject.Lexer.LexTopEnd` | src/third/toml/lex.go:212-230 | Its reading, backing up, pushing and emitting amount to the look-ahead step StepTopEnd. |
| `TomlLexerObject.Lexer.LexTableStart` | src/third/toml/lex.go:237-247 | Its reading, backing up, pushing and emitting amount to the look-ahead step StepTableStart. |
| `TomlLexerObject.Lexer.LexArrayTableEnd` | src/third/toml/lex.go:254-261 | Its reading, backing up, pushing and emitting amount to the look-ahead step StepArrayTableEnd. |
| `TomlLexerObject.Lexer.LexTableNameStart` | src/third/toml/lex.go:263-281 | Its reading, backing up, pushing and emitting amount to the look-ahead step StepTableNameStart. Whitespace is peeked at and never consumed. |
| `TomlLexerObject.Lexer.LexBareTableName` | src/third/toml/lex.go:284-297 | Its reading, backing up, pushing and emitting amount to the look-ahead step StepBareTableName. |
| `TomlLexerObject.Lexer.LexTableNameEnd` | src/third/toml/lex.go:299-313 | Its reading, backing up, pushing and emitting amount to the look-ahead step StepTableNameEnd. |
| `TomlLexerObject.Lexer.LexKeyStart` | src/third/toml/lex.go:316-335 | Its reading, backing up, pushing and emitting amount to the look-ahead step StepKeyStart. |
| `TomlLexerObject.Lexer.LexBareKey` | src/third/toml/lex.go:338-353 | Its reading, backing up, pushing and emitting amount to the look-ahead step StepBareKey. The blank behind a name is consumed and trimmed away. |
| `TomlLexerObject.Lexer.LexKeyEnd` | src/third/toml/lex.go:356-367 | Its reading, backing up, pushing and emitting amount to the look-ahead step StepKeyEnd. |
| `TomlLexerObject.Lexer.LexValue` | src/third/toml/lex.go:371-418 | Its reading, backing up, pushing and emitting amount to the look-ahead step StepValue. After two quotes it backs up as far as it went. |
| `TomlLexerObject.Lexer.LexArrayValue` | src/third/toml/lex.go:422-441 | Its reading, backing up, pushing and emitting amount to the look-ahead step StepArrayValue. |
| `TomlLexerObject.Lexer.LexArrayValueEnd` | src/third/toml/lex.go:444-461 | Its reading, backing up, pushing and emitting amount to the look-ahead step StepArrayValueEnd. |
| `TomlLexerObject.Lexer.LexString` | src/third/toml/lex.go:472-488 | Its reading, backing up, pushing and emitting amount to the look-ahead step StepStr. |
| `TomlLexerObject.Lexer.LexMultilineString` | src/third/toml/lex.go:492-514 | Its reading, backing up, pushing and emitting amount to the look-ahead step StepMultilineStr. |
| `TomlLexerObject.Lexer.LexRawString` | src/third/toml/lex.go:518-532 | Its reading, backing up, pushing and emitting amount to the look-ahead step StepRawStr. |
| `TomlLexerObject.Lexer.LexMultilineRawString` | src/third/toml/lex.go:536-556 | Its reading, backing up, pushing and emitting amount to the look-ahead step StepMultilineRawStr. |
| `TomlLexerObject.Lexer.LexMultilineStringEscape` | src/third/toml/lex.go:560-570 | Its reading, backing up, pushing and emitting amount to the look-ahead step StepMultilineStrEscape. |
| `TomlLexerObject.Lexer.LexStringEscape` | src/third/toml/lex.go:572-598 | Its reading, backing up, pushing and emitting amount to the look-ahead step StepStrEscape. |
| `TomlLexerObject.Lexer.LexHex` | src/third/toml/lex.go:600-622 | Its reading, backing up, pushing and emitting amount to the look-ahead step StepHex. The loop reads four or eight hexadecimal digits. |
| `TomlLexerObject.Lexer.LexNumberOrDate` | src/third/toml/lex.go:639-656 | Its reading, backing up, pushing and emitting amount to the look-ahead step StepNumberOrDate. |
| `TomlLexerObject.Lexer.LexDateAfterYear` | src/third/toml/lex.go:660-685 | Its reading, backing up, pushing and emitting amount to the look-ahead step StepDate. The loop compares the input with the format character by character. |
| `TomlLexerObject.Lexer.LexNumber` | src/third/toml/lex.go:703-715 | Its reading, backing up, pushing and emitting amount to the look-ahead step StepNumber. |
| `TomlLexerObject.Lexer.LexFloat` | src/third/toml/lex.go:730-739 | Its reading, backing up, pushing and emitting amount to the look-ahead step StepFloat. |
| `TomlLexerObject.Lexer.LexConst` | src/third/toml/lex.go:743-753 | Reads the rest of a word; it answers the same whether it fails or not, so behind an error item a boolean item follows. |
| `TomlLexerObject.Lexer.LexWord` | src/third/toml/lex.go:755-773 | Emits the boolean item in both cases and pops. |
| `TomlLexerObject.Lexer.LexComment` | src/third/toml/lex.go:784-792 | Its reading, backing up, pushing and emitting amount to the look-ahead step StepComment. |
| `TomlLexerObject.Lexer.RunState` | src/third/toml/lex.go:83 | One call of the current state function, whichever it is, is one step of the automaton. |
| `TomlEscapes.ScanIsWellEscaped` | src/third/toml/lex.go:572-622 | The escapes the lexer lets through, one character at a time, are exactly those every one of which is complete for replaceEscapes. |
| `TomlEscapes.ReplaceEscapesLoop` | src/third/toml/parse.go:417-475 | The index loop decodes each escape, stays in bounds, and ends in a bug branch or a bad slice exactly where decoding is undefined; what decoding means is stated in the next four rows. |
| `TomlHex.HexExactly` | src/third/toml/parse.go:477-490 | For every text of hexadecimal digits, in either case: its value is n if and only if it is the text of n, written by dividing by 16. |
| `TomlHex.EscapeMeans` | src/third/toml/parse.go:455-474 | An escape of four or eight digits that are the text of n stands for the character n, and for U+FFFD if n is no character. |
| `TomlHex.LetterMeans` | src/third/toml/parse.go:430-454 | Each escape of one letter stands for its control character, quote or backslash: b for 8, t for 9, n for 10, f for 12, r for 13. |
| `TomlHex.PlainMeans` | src/third/toml/parse.go:421-426 | Any character but a backslash stands for itself. |
| `TomlHex.DecodeJoins` | src/third/toml/parse.go:417-475 | Decoding a complete text and then another is decoding the two in a row. |
| `TomlStrings.FormGot` | src/third/toml/lex.go:472-570 | The text of a string of any of the four kinds, basic, raw, multi-line and raw multi-line, is fetched as one item of that kind that holds what stands between the quotes, and is consumed exactly. |
| `TomlStrings.StringLine` | src/third/toml/parse.go:162-180 | From text to value on a key line, for all four kinds: a raw string means itself, a basic string its decoding, and with three quotes a newline behind the opening ones and what line escapes join do not count. |
| `TomlStrings.UnicodeLine` | src/third/toml/parse.go:455-493 | A key line whose value is one escape of four or eight hexadecimal digits, in either case, is read as the character of that number. |
| `TomlStrings.LineEscapeStripped` | src/third/toml/parse.go:407-415 | A backslash at the end of a line goes, with the newline and all white space behind it, and nothing else of the string changes. |
| `TomlEscapes.EscapeRoundTrip` | src/third/toml/encode.go:33-39 | replaceEscapes undoes the escaping of writeQuoted, for every string. |
| `TomlChars.Classes` | src/third/toml/lex.go:802-828 | Blanks, ends of lines, digits, hexadecimal digits and the characters of bare keys are exactly these code points. |
| `TomlChars.EscapesExactly` | src/third/toml/encode.go:33-39 | In a string the encoder escapes the characters 9, 10, 13, 34 and 92, each with two, and no others. |
| `TomlChars.QuotesExactly` | src/third/toml/decode_meta.go:78-79 | In a key it escapes quotes and nothing else. |
| `TomlChars.BareExactly` | src/third/toml/decode_meta.go:70-83 | A key is written without quotes if and only if all its characters are letters, digits, underscores and dashes. |
| `TomlChars.MixedExactly` | src/third/toml/type_check.go:74-91 | An array is homogeneous if and only if any two of its elements are of the same of the six kinds of values. |
| `TomlValues.ScalarSafe` | src/third/toml/parse.go:162-222 | On every item the lexer delivers, the conversion reaches a bug branch if and only if it is a date that is not on the calendar or a multi-line string that, trimmed, has an incomplete escape, and an error of the user if and only if it is a number out of the range of 64-bit integers or floats; basic strings and booleans never do either. |
| `TomlValues.ParseArray` | src/third/toml/parse.go:222-236 | Whatever the lexer delivers, the loop over array elements ends, meets no unexpected item, and when it succeeds the lexer is one array further out and has advanced. |
| `TomlValues.ParseValue` | src/third/toml/parse.go:162-246 | The same for any value: success leaves the lexer exactly behind it. |
| `Decimal.FormatParse` | src/third/toml/parse.go:181-195 | Parsing the decimal text of a 64-bit integer gives the integer back, and a range error for every other. |
| `Decimal.ZerosInFront` | src/third/toml/parse.go:181-195 | Zeros in front of digits do not change the number. |
| `Decimal.SignedParse` | src/third/toml/parse.go:181-195 | Digits are their number, behind a plus sign too, and its negation behind a minus sign, if that is in range. |
| `TomlNumbers.DateExactly` | src/third/toml/parse.go:216-221 | Text in the form of a datetime is a value if and only if it names a day of the Gregorian calendar, by the day numbers of that month and the next, and a second of that day; otherwise the process ends. |
| `TomlNumbers.FloatExactly` | src/third/toml/parse.go:196-209 | Text of sign, digits, point and digits is in range if and only if the real number it stands for, fraction included, is smaller than (2^54 - 1) 2^970, half a unit above the largest 64-bit float. |
| `TomlArrayText.ElementRoundTrip` | src/third/toml/encode.go:157-222 | For every string, boolean, 64-bit integer, finite float text, datetime on the calendar or homogeneous array of such, at any depth: lexing the text the encoder writes for it and folding the items gives the same value back, consumes exactly that text and leaves the continuation stack popped by one. |
| `TomlArrayText.FloatRead` | src/third/toml/lex.go:639-739 | Every text with an optional minus sign, digits, a point and digits is lexed as one float item, consumed exactly. |
| `TomlArrayText.DateRead` | src/third/toml/lex.go:639-685 | Every text of the form YYYY-MM-DDThh:mm:ssZ is lexed as one datetime item, consumed exactly. |
| `TomlArrayText.ElemsRoundTrip` | src/third/toml/parse.go:222-236 | The same for the rest of an array behind any elements already read, with the separators the encoder writes. |
| `TomlArrayText.StringRoundTrip` | src/third/toml/encode.go:207-209 | For every string: the quoted text is lexed as one string item, consumed exactly, whose replaceEscapes is the string. |
| `TomlArrayText.FetchRounds` | src/third/toml/lex.go:77-86 | A run of state functions that ends in a queued item is what the fetch delivers. |
| `TomlReplay.EncodeThenParse` | src/third/toml/encode.go:224-297 | For every nested table of any depth: the encoder accepts exactly the encodable tables; replaying its headers and lines through establishContext and setValue from an empty parser is accepted and rebuilds exactly that table (nils and empty arrays of tables normalised), with no implicit mark left. |
| `TomlReplay.IdentityExactly` | src/third/toml/parse.go:248-354 | Encode then parse is the identity if and only if the table holds no nil and no empty array of tables. |
| `TomlReplay.EncodesExactly` | src/third/toml/encode.go:266-297 | The encoder succeeds under a valid key if and only if no written key is empty and no written array mixes types, at any depth. |
| `TomlReplay.MapMakes` | src/third/toml/encode.go:266-297 | Under any context and behind any tables already built: direct keys first, then subtables, fills exactly the table the context denotes and touches nothing else. |
| `TomlReplay.TablesMake` | src/third/toml/encode.go:224-239 | Each [[key]] header appends one table to the array and the lines behind it fill the last one. |
| `TomlReplay.SortedKeys` | src/third/toml/encode.go:284-294 | The keys are written in strict order, each exactly once. |
| `TomlContext.NothingOverwritten` | src/third/toml/parse.go:248-354 | No accepted statement overwrites or removes an earlier binding: the new tables extend the old ones. |
| `TomlContext.DocumentOnlyExtends` | src/third/toml/parse.go:58-64 | The same from any state over a whole document. |
| `TomlContext.AcceptedLine` | src/third/toml/parse.go:307-354 | An accepted line stores its value exactly when the key was free; otherwise the key was an implicit table and the value is silently dropped with the mark. |
| `TomlShadows.ValueDropped` | src/third/toml/parse.go:339-354 | The document [a.b.c], [a], b = v is accepted for every v, and b is still the table that the first header made: the value is nowhere. |
| `TomlShadowText.DroppedDocumentAccepted` | src/third/toml/parse.go:40-67 | The same for the text of that document, with any value the encoder writes and any blank indentation. |
| `TomlContext.DocumentWritten` | src/third/toml/parse.go:282-301 | No document makes an empty array of tables or a nil. |
| `TomlContext.StatementContext` | src/third/toml/parse.go:307-338 | A line reaches a bug branch of setValue exactly when the context does not lead to a table, and only a header whose own name is taken by a plain value but marked implicit leaves such a context. |
| `TomlContext.BugExactly` | src/third/toml/parse.go:307-338 | A document ends in a bug branch of setValue if and only if somewhere a line directly follows such a header. |
| `TomlContext.FlatDocuments` | src/third/toml/parse.go:248-302 | Context invariant: without arrays of tables and without dots inside header names, after every statement the context leads to a table, every implicit mark denotes a table, and the bug branches are out of reach. |
| `TomlShadows.DottedNameBreaksContext` | src/third/toml/parse.go:373-387 | For any value, a document of five statements with a dot inside a quoted name, whose mark is taken for another key's, reaches the bug branch. |
| `TomlShadows.ArrayBreaksContext` | src/third/toml/parse.go:282-301 | For any value, a document of six statements without any such dot reaches it too: the mark of a.b outlives the element of the array of tables it was made in. |
| `TomlShadowText.ArrayDocumentDies` | src/third/toml/parse.go:40-67 | Lexing and parsing the text of that document ends in the bug branch, with any value the encoder writes and any blank indentation. |
| `TomlShadowText.DottedDocumentDies` | src/third/toml/parse.go:40-67 | The same for the text of the document with the quoted name. |
| `TomlParser.TableParser.SetValue` | src/third/toml/parse.go:307-354 | Walking the context and storing in place gives exactly the outcome and the tables of the specification, including the dropped value and both errors. |
| `TomlParser.TableParser.EnterParents` | src/third/toml/parse.go:249-281 | The loop over the leading names makes and marks missing tables, enters the last element of arrays of tables, and stops at a plain value. |
| `TomlParser.TableParser.AppendTable` | src/third/toml/parse.go:282-297 | Appends one table to the array in the context, makes the array if it is missing, and refuses any other binding. |
| `TomlParser.TableParser.EstablishContext` | src/third/toml/parse.go:248-302 | Both kinds of header give exactly the outcome, tables, marks and context of the specification. |
| `TomlParser.TableParser.AddImplicit` | src/third/toml/parse.go:373-375 | Marks exactly this key. |
| `TomlParser.TableParser.RemoveImplicit` | src/third/toml/parse.go:379-381 | Unmarks exactly this key. |
| `TomlParser.TableParser.IsImplicit` | src/third/toml/parse.go:385-387 | True exactly for a marked key; a key set to false counts as unmarked. |
| `TomlParser.TableParser.Statement` | src/third/toml/parse.go:99-142 | A header or a line changes tables, context, marks and the order of keys as specified. |
| `TomlParser.TableParser.Run` | src/third/toml/parse.go:58-64 | A whole document leaves what replaying its statements leaves. |
| `TomlEndings.EveryInput` | src/third/toml/parse.go:40-67 | For every input string, with the statements read and the place where the parser asks the lexer last: parsing never returns if and only if the statements are accepted and the text ahead at that place leads into a loop (never, for an input without three quotes in a row and without a blank behind a bracket or dot); it ends in a bug exit for a date, or for an escape, if and only if they are accepted and the item got there is a date off the calendar, or a multi-line string with an incomplete escape; in the bug exit for a context exactly when the statements hit a shadowed header; and otherwise with tables, none of them an empty array, or with an error for the user. |
| `TomlEndings.ReadingExplained` | src/third/toml/parse.go:69-158 | Reading a document, however nested, ends in a loop or a bug exit if and only if the answer of the lexer where the parser asks last is to blame. |
| `TomlExits.BlankNeverReturns` | src/third/toml/lex.go:263-281 | Every input that starts with a bracket and a blank makes the parser run forever. |
| `TomlExits.BlankInput` | src/third/toml/lex.go:263-281 | [ a] does. |
| `TomlExits.UnclosedNeverReturns` | src/third/toml/lex.go:492-514 | So does a line, with any key, whose value is a multi-line string without closing quotes. |
| `TomlExits.UnclosedInput` | src/third/toml/lex.go:492-514 | a = """x does. |
| `TomlExits.OffCalendarDies` | src/third/toml/parse.go:216-221 | A line, with any key, whose value is a date in the right form that is not on the calendar ends the process. |
| `TomlExits.FebruaryInput` | src/third/toml/parse.go:216-221 | a = 2000-02-30T00:00:00Z does. |
| `TomlExits.EscapedReturnDies` | src/third/toml/lex.go:560-570 | A multi-line string of a backslash, a carriage return and any other character than a backslash ends the process. |
| `TomlExits.EscapedReturnInput` | src/third/toml/parse.go:417-475 | Such a line is an input of 13 characters. |
| `TomlDocument.ParseReplays` | src/third/toml/parse.go:58-64 | Applying each statement when it is read is the same as reading them all and replaying them. |
| `TomlDocument.ReadHeader` | src/third/toml/parse.go:105-112 | The loop over names sees names and then the right bracket only, so the key is never empty and the assertion on the end holds. |
| `TomlDocument.ReadTopLevel` | src/third/toml/parse.go:99-142 | Every read ends in a statement, in nothing, or in one of the admitted endings, and the lexer has advanced. |
| `TomlReader.Reader.ArrayLoop` | src/third/toml/parse.go:222-236 | The loop over elements that asks the lexer object for items computes the array of the specification and terminates. |
| `TomlReader.Reader.HeaderKey` | src/third/toml/parse.go:105-112 | The loop over names collects exactly the key of the header. |
| `TomlReader.Reader.Value` | src/third/toml/parse.go:162-246 | Reads the value that starts with the item, leaving the lexer object exactly behind it. |
| `TomlReader.Reader.TopLevel` | src/third/toml/parse.go:99-142 | Reads one top-level item: exactly one statement, comment or ending. |
| `TomlReader.Reader.ParseAll` | src/third/toml/parse.go:40-67 | The two objects together compute the parse of the specification, and the loop ends. |
| `TomlEncoder.EncodeTable` | src/third/toml/encode.go:86-106 | Succeeds if and only if the table is encodable, and then the text is that of its statements. |
| `TomlEncoder.Encoder.EMap` | src/third/toml/encode.go:266-297 | Splitting, sorting and the two writing loops write exactly the statements of the table, and the buffer holds their text. |
| `TomlEncoder.Encoder.WriteMapKeys` | src/third/toml/encode.go:284-294 | The loop writes the bindings of the given keys in order and stops at the first refusal. |
| `TomlEncoder.Encoder.ETable` | src/third/toml/encode.go:241-253 | Writes the header of a named table, then its bindings; nothing for the root but the bindings. |
| `TomlEncoder.Encoder.EArrayOfTables` | src/third/toml/encode.go:224-239 | Writes one header and one table for each element, in order. |
| `TomlEncoder.Encoder.KeyEqElement` | src/third/toml/encode.go:497-505 | Writes an indented line for a valid key and a uniform value, and refuses otherwise. |
| `TomlEncoder.Encoder.EArrayOrSliceElement` | src/third/toml/encode.go:211-222 | The loop writes brackets, elements and separators of the array, however nested. |
| `TomlEncoder.Encoder.EElement` | src/third/toml/encode.go:157-198 | Appends exactly the text of the value. |
| `TomlEncoder.Encoder.Newline` | src/third/toml/encode.go:491-495 | Writes a newline only behind earlier output. |
| `TomlLayout.RenderAppend` | src/third/toml/encode.go:507-516 | Writing one more statement appends its line, indented by the depth of the last header. |
| `TomlKeyText.KeyTextExactly` | src/third/toml/decode_meta.go:70-83 | For every key: the text between the quotes is all of a basic string, and that string is the key, if and only if the key holds no backslash and no end of line; what that means for lines, headers and documents is stated below. |
| `TomlKeyText.QuotedRead` | src/third/toml/lex.go:371-488 | A quoted key without backslash and end of line is lexed as one string item, consumed exactly. |
| `TomlKeyText.BackslashLost` | src/third/toml/decode_meta.go:78-79 | The quoting escapes only quotes: a key of a backslash and a t is read back as a tab. |
| `TomlText.LineRead` | src/third/toml/lex.go:316-418 | A key line of the encoder, bare or quoted, is read as exactly the statement it was made from, up to the end of the line. |
| `TomlKeyLines.StringFetched` | src/third/toml/lex.go:472-488 | A string item holds the text up to the first quote outside an escape, every escape in it is complete, and no end of line is in it. |
| `TomlKeyLines.OtherKey` | src/third/toml/decode_meta.go:70-83 | Behind the opening quote of a key with a backslash or an end of line, whatever string is read, ended by a quote of the key, by the closing one or by one further on in the line, it is not the key. |
| `TomlKeyLines.LineReadExactly` | src/third/toml/parse.go:129-139 | For every non-empty key and every value the encoder writes: the line is read as the statement it was made from if and only if the key holds no backslash and no end of line; with any other key nothing is assigned to that key. |
| `TomlHeaderText.NamesRead` | src/third/toml/lex.go:263-313 | The names of a header, bare or quoted, with their dots and closing brackets, are read as exactly its key. |
| `TomlHeaderText.HeaderRead` | src/third/toml/parse.go:104-124 | A header of the encoder is read as exactly that header, of the same kind. |
| `TomlReadExactly.NamesLost` | src/third/toml/parse.go:104-124 | A header with a name that holds a backslash or an end of line, at any place, is read as another key or not at all. |
| `TomlReadExactly.RenderExactly` | src/third/toml/parse.go:69-158 | The text of any statements of the encoder is read as exactly these statements if and only if no name in them holds a backslash or an end of line. |
| `TomlReadExactly.TextReadExactly` | src/third/toml/encode.go:86-106 | For every table with supported values: its text is read back as the statements that were written if and only if no written key, at any depth, holds a backslash or an end of line. |
| `TomlDocumentText.RenderRead` | src/third/toml/parse.go:58-64 | The text of any statements with readable keys, with any blank indentation, is read as exactly these statements and then the end. |
| `TomlTextRoundTrip.TextRoundTrip` | src/third/toml/encode.go:86-106 | From table to text to table: for every table of any depth whose values are supported and whose keys are not empty and hold no backslash and no end of line, the encoder accepts, and lexing and parsing the text it writes rebuilds the table up to nils and empty arrays of tables, exactly when it holds none. |
| `TomlExpected.ArrayExpected` | src/third/toml/encode_test.go:348-359 | A table with a number and an array of tables in it, whatever the names, numbers and indentation: the text has the lines, indents and blank line that the encoder's tests expect. |
| `TomlExpected.TablesExpected` | src/third/toml/encode_test.go:280-289 | The same for a table in a table and one behind them: only the last is set off by a blank line. |
| `TomlLayouts.GapRead` | src/third/toml/lex.go:422-461 | In an array, whatever was read before: any blanks, ends of lines and comments mean nothing. |
| `TomlLayouts.LaidRead` | src/third/toml/parse.go:162-246 | From text to value: every value in every layout, with any spelling of strings and integers, gaps and comments around the elements of arrays at any depth and perhaps a comma behind the last one, is parsed as what it means and consumed exactly; it is an error of the user exactly if an array in it mixes types. |
| `TomlLines.RowsRead` | src/third/toml/parse.go:58-158 | Every document in every layout, with gaps and comments between the lines, blanks around the separators and names in every spelling, is read as exactly the statements that its lines mean, in order, up to the first mixed array. |
| `TomlLines.LayoutRead` | src/third/toml/parse.go:40-67 | The same from the text to the tables: parsing is replaying what the lines mean. |
| `TomlShapes.FormFound` | src/third/toml/lex.go:371-570 | The other way round: whatever the lexer accepts behind a quote is the text of a string of one of the four kinds, all of it. |
| `TomlValueShapes.FindValue` | src/third/toml/parse.go:162-246 | Whatever lexer and parser accept as a value, at any depth, is written in one of the layouts, and the lexer is left exactly behind it. |
| `TomlGrammar.FindRows` | src/third/toml/parse.go:58-158 | Whatever is read to its end is written in one of the layouts. |
| `TomlGrammar.AcceptedExactly` | src/third/toml/lex.go:182-800 | The language: for every input, reading gets to the end if and only if the input is written in one of the layouts and no array in it mixes types. The layouts are a grammar of lines, names, values and gaps, without the states of the lexer. |
| `TomlGrammar.OneMeaning` | src/third/toml/parse.go:58-158 | However the text of a document is taken apart into lines, names, values and gaps, it means the same statements. |
| `TomlGrammar.ParsedExactly` | src/third/toml/parse.go:40-67 | Parsing succeeds if and only if the input is such a text and the tables accept its statements. |
| `TypeFields.RoundVisits` | src/third/toml/type_fields.go:82-137 | A round of the search visits a new struct type or queues nothing more, so the search ends for recursive families too. |
| `TypeFields.CandidatesDenote` | src/third/toml/type_fields.go:86-137 | The index of every candidate leads, through embedded structs only, to an exported field with a tag other than "-", or without one if it is not an anonymous struct; the name is the tag if there is one and the declared name otherwise, and the flag and the type are those of the field. Candidates with the same index are the same. |
| `TypeFieldSearch.CandidatesExactly` | src/third/toml/type_fields.go:67-137 | For every struct that embedding reaches, however often and in whatever ways: its known fields, and no others, are candidates, behind one index of least length, each once or, if the struct is embedded more than once where it is first reached, twice. |
| `TypeFieldSearch.CandidateExactly` | src/third/toml/type_fields.go:86-118 | A declared field of such a struct is a candidate if and only if it is exported, its tag is not "-", and it has a tag, is not anonymous or is no struct. |
| `TypeFieldRules.DominantField` | src/third/toml/type_fields.go:181-211 | Finds the candidate that beats all others by depth and then by tag, or reports that there is none. |
| `TypeFieldRules.CompactedExactly` | src/third/toml/type_fields.go:147-167 | A candidate survives if and only if it was recorded once and beats every other candidate of its name. |
| `TypeFieldRules.CompactInPlace` | src/third/toml/type_fields.go:147-169 | Moving the winners to the front of the array while it is read leaves exactly the survivors there. |
| `TypeFieldRules.KeepWinner` | src/third/toml/type_fields.go:159-167 | One group: its winner, if any, is appended to what is kept, and what is still to be read is untouched. |
| `TypeFieldRules.TypeFieldsExactly` | src/third/toml/type_fields.go:67-173 | For any family of struct types, recursive ones included: a field is in the result if and only if it survives among the candidates of its name, names are distinct, and indexes strictly ascend. |
| `TypeFieldRules.FieldsForType` | src/third/toml/type_fields.go:67-173 | The loops over levels, structs and declared fields compute that result. |
| `TypeFieldNames.ReturnedExactly` | src/third/toml/type_fields.go:67-173 | In terms of the declarations alone: a field is returned if and only if it is known, its struct is embedded no more than once where it is first reached, and no field of that name is first reached as early, but for untagged ones beside it if it is tagged. |
| `TypeFieldNames.SeenReturned` | src/third/toml/type_fields.go:141-167 | Every field that Go's rule for embedded fields, with tags, leaves visible is returned. |
| `TypeFieldNames.GoExactly` | src/third/toml/type_fields.go:141-167 | Of the fields returned, Go's rule leaves visible exactly those whose struct can be reached in one way of least length. |
| `TypeFieldNames.AmbiguousReturned` | src/third/toml/type_fields.go:119-137 | The two differ: a field behind two ways that join before the last struct is ambiguous in Go and is returned. |
| `TunnelProofs.UpstreamSafety` | src/proxy/et_tcp_client.go:79-145 | In every run, whatever requests the network delays, reorders, repeats or drops and across failures and destruction: the bytes written to the destination are a prefix of those read from the local socket, the difference is exactly the concatenation of all hands and queues in between, and the accepted requests are 1, 2, 3, ... in order, each once. |
| `TunnelProofs.DownstreamSafety` | src/proxy/et_tcp_client.go:147-166 | In every run: the bytes written to the local socket are a prefix of those read from the destination, however responses cut them up and long polls time out, and the difference is exactly what is in flight. |
| `TunnelProofs.PollTokenNeverLost` | src/proxy/et_http_client.go:88-202 | In every run, while the client is alive: a nop is queued, or processLoop starts or is inside sendData, or a response is queued or held by recvLoop, with the length check racing with sends. |
| `TunnelProofs.OneRequestAtATime` | src/proxy/et_tcp_client.go:79-93 | In every run at most one accepted request waits, so queueing it under the lock never blocks, and the client is at most one request ahead of its responses. |
| `TunnelProofs.ProxyKeeps` | src/proxy/et_tcp_proxy.go:77-152 | Every step of the two loops and of pushData and popData keeps the accounts of both directions of a socket. |
| `TunnelProofs.ServedKeeps` | src/proxy/et_tcp_client.go:108-145 | What was pushed to the destination, the rest of the request in hand and the waiting requests make up the accepted requests, in order. |
| `TunnelProofs.UpKeeps` | src/proxy/et_tcp_server.go:71-78 | The loop from the local socket to the client, and the client's queue and requests, lose and reorder nothing. |
| `TunnelProofs.DownKeeps` | src/proxy/et_tcp_server.go:80-87 | The same for the loop from the client to the local socket. |
| `TunnelProofs.ConsumedKeeps` | src/proxy/et_http_client.go:169-202 | What recvLoop has read is, at every step, all completed responses and the read part of the current one. |
| `TunnelTransport.DeliveryAccepts` | src/proxy/et_tcp_client.go:79-93 | In every reachable state in which no request is held and one is sent that is not accepted: delivering the next one accepts exactly it, and makes it the one waiting request; delivering any other changes nothing. |
| `TunnelTransport.CarriesUp` | src/proxy/et_tcp_client.go:108-145 | From every quiet state: there is a run in which a block that the local socket delivers is written to the destination, its request answered, and the tunnel is quiet again. |
| `TunnelTransport.CarriesDown` | src/proxy/et_tcp_client.go:147-166 | The same from the destination to the local socket, through a poll and its response. |
| `TunnelTransport.Transport` | src/proxy/et_tcp_proxy.go:77-152 | For any list of blocks of at most the block size, in any order of the two directions: there is a run from the start in which the sockets deliver exactly these, and at its end every byte is written at the other end. |
| `TunnelEnds.CarriesUpPastPoll` | src/proxy/et_tcp_client.go:79-145 | A block goes up and is written while a long poll is pending, which is answered afterwards. |
| `TunnelEnds.EndedMeansDead` | src/proxy/et_tcp_proxy.go:77-152 | In every run: a loop that has ended says that its end of the connection is dead, and has left the nil that ends the next one. |
| `TunnelEnds.FailedReadIsLast` | src/proxy/et_tcp_proxy.go:95-123 | After a failed read, also one that delivers a last block, the socket delivers nothing more. |
| `TunnelEnds.FailedRequestIsLast` | src/proxy/et_http_client.go:88-167 | After a failed request no request is ever sent. |
| `TunnelEnds.FailedWriteIsLast` | src/proxy/et_tcp_proxy.go:77-93 | After a failed write nothing more is written to the destination. |
| `TunnelEnds.DeadDestination` | src/proxy/et_tcp_client.go:122-166 | When the destination dies under a served request and a pending poll, there is a run in which the poll is answered and the loops of the server end. |
| `TunnelEnds.LastPoll` | src/proxy/et_tcp_client.go:147-166 | A poll that finds the server finished is answered at once, and the answering loop ends. |
| `TunnelEnds.ShutsDown` | src/proxy/et_tcp_server.go:71-87 | From every quiet state there is a run in which every loop of the tunnel ends. |
| `Glob.SplitPattern` | src/third/seelog/common_exception.go:139-160 | Appending in place gives the parts of the pattern: no empty part, and texts and asterisks alternate. |
| `Glob.SplitMeans` | src/third/seelog/common_exception.go:139-160 | The parts mean what the pattern means: they match exactly the same strings. |
| `Glob.StringMatchesPattern` | src/third/seelog/common_exception.go:162-194 | The recursion with its scanning loop ends and reports exactly what the scan by first occurrences finds. |
| `Glob.MatcherSound` | src/third/seelog/common_exception.go:139-194 | For all patterns and strings: a reported match is a match. |
| `Glob.MatcherComplete` | src/third/seelog/common_exception.go:139-194 | Every match is reported if the pattern has no asterisk, ends in one, or its last text has no border. |
| `GlobBorders.BorderExactly` | src/third/seelog/common_exception.go:178-190 | For every pattern that ends in a text behind an asterisk and whose parts in front can stand in one place only: the matcher is right about every string if and only if the last text has no border. |
| `GlobBorders.OneAsteriskExactly` | src/third/seelog/common_exception.go:178-190 | For every pattern with one asterisk before a last text: the matcher is right about every string if and only if that text has no border. |
| `GlobBorders.OverlapMissed` | src/third/seelog/common_exception.go:178-190 | The pattern *aa matches aaa, and the matcher says that it does not. |
| `GlobBorders.SharedLetterComplete` | src/third/seelog/common_exception.go:178-190 | With several asterisks a border need not hurt: the matcher is right about *a*aa and every string. |
| `RollingProofs.KeepsSuffix` | src/third/seelog/writers_rollingfilewriter.go:339-423 | Over any sequence of writes and closes, and however the sort leaves files of one number: in whatever ascending order the history stands in the end, it stood in the beginning in an ascending order so that history and then current file spell a suffix of everything stored and written, all of it when no roll limit is set. |
| `RollingProofs.KeepsSuffixDistinct` | src/third/seelog/writers_rollingfilewriter.go:339-423 | When the roll numbers differ, that holds of the one ascending order there is in the beginning and in the end. |
| `RollingFiles.OneOrder` | src/third/seelog/writers_rollingfilewriter.go:473-486 | When the roll numbers differ, there is only one ascending order of the history. |
| `RollingFiles.RollNameOf` | src/third/seelog/writers_rollingfilewriter.go:186-206 | In both name modes, a file name made for a roll name is recognised and gives that roll name back, and it is never the current file. |
| `RollingFiles.FullNameOf` | src/third/seelog/writers_rollingfilewriter.go:329-337 | The other way round: a recognised file name is the one made for its roll name. |
| `RollingFiles.FirstName` | src/third/seelog/writers_rollingfilewriter.go:488-494 | The first roll of a file has the number 1, behind its name or in front of it. |
| `RollingProofs.NewNameFresh` | src/third/seelog/writers_rollingfilewriter.go:384-403 | The name of the new roll is not taken, so the rename overwrites nothing. |
| `RollingProofs.RollHistory` | src/third/seelog/writers_rollingfilewriter.go:269-327 | One roll puts the current contents at the end of the history under a number one higher, leaves the newest files untouched, removes only the oldest over the limit, and starts an empty current file. |
| `RollingProofs.FullBySize` | src/third/seelog/writers_rollingfilewriter.go:460-461 | A write rolls if and only if the current file, as it stands in the directory, is at least as long as the limit. |
| `RollingSizes.WriteAppends` | src/third/seelog/writers_rollingfilewriter.go:339-423 | If the current file is shorter than the limit, a write leaves its former contents followed by the bytes, and no other file and no archive entry changes. |
| `RollingSizes.WriteRolls` | src/third/seelog/writers_rollingfilewriter.go:339-423 | Otherwise the current file holds exactly the bytes, a new roll under a free name with the next number holds the former contents, and only the oldest rolls over the limit are gone. |
| `RollingSizes.RunRolls` | src/third/seelog/writers_rollingfilewriter.go:339-423 | Over any run that ends in a write: the current file holds what was written last behind something shorter than the limit, and every roll and archive entry that was not there before is at least that long. |
| `RollingProofs.HistoryBounded` | src/third/seelog/writers_rollingfilewriter.go:269-283 | After a write to a file of the limit or more, with a roll limit, the directory holds no more history files than that, and among them, under a name that was free, the contents that were current. |
| `RollingProofs.RunBounded` | src/third/seelog/writers_rollingfilewriter.go:269-283 | Over any sequence of writes and closes, the directory never holds more history files than the limit, or than it held before. |
| `RollingProofs.WriteSpells` | src/third/seelog/writers_rollingfilewriter.go:339-423 | One write appends its bytes to what the files spell; what it drops is from the front, and is the contents of the oldest rolls. |
| `RollingProofs.ZipLosesNothing` | src/third/seelog/writers_rollingfilewriter.go:279-324 | With zip archiving and an empty archive at the start: archive, history and current file together spell, in ascending order of their numbers, every byte stored before and written since. |
| `RollingProofs.RunKeepsAll` | src/third/seelog/writers_rollingfilewriter.go:279-324 | The same from any archive that is older than the history, which every run keeps so. |
| `RollingProofs.ArchiveKept` | src/third/seelog/writers_rollingfilewriter.go:284-316 | No archive entry is overwritten or removed: whatever is in the archive at some moment is in it, with the same contents, after any further writes and closes. |
| `RollingWriter.RollingFileWriter.GetSortedLogHistory` | src/third/seelog/writers_rollingfilewriter.go:208-231 | Lists exactly the history files, oldest first. |
| `RollingWriter.RollingFileWriter.DeleteRolls` | src/third/seelog/writers_rollingfilewriter.go:269-327 | Archives and removes exactly the oldest files over the limit. |
| `RollingWriter.RollingFileWriter.ArchiveFiles` | src/third/seelog/writers_rollingfilewriter.go:279-316 | The loop adds exactly the given files to the archive and changes no other entry. |
| `RollingWriter.RollingFileWriter.RemoveFiles` | src/third/seelog/writers_rollingfilewriter.go:317-324 | The loop removes exactly the given files. |
| `RollingWriter.RollingFileWriter.RenameCurrent` | src/third/seelog/writers_rollingfilewriter.go:384-403 | Renames the current file to the number after the newest and adds it to the history. |
| `RollingWriter.RollingFileWriter.RollOver` | src/third/seelog/writers_rollingfilewriter.go:353-417 | The rolling half of Write leaves directory and archive as specified. |
| `RollingWriter.RollingFileWriter.Write` | src/third/seelog/writers_rollingfilewriter.go:339-423 | Opens, rolls when the file is full, appends, and reports all bytes as written: behind it the current file holds its former contents and the bytes if these contents were shorter than the limit, and the bytes alone otherwise. |
| `AsyncLoggerProofs.Conservation` | src/third/seelog/behavior_asynclogger.go:100-142 | In every interleaving of any number of callers with the worker: accepted messages are the processed ones, in order, followed by the queue, and the queue never exceeds its limit. |
| `AsyncLoggerProofs.CriticalReturns` | src/third/seelog/logger.go:249-252 | In every interleaving: a critical call whose message is accepted returns only when that message and everything accepted before it are processed, in order. |
| `AsyncLoggerProofs.CriticalCovers` | src/third/seelog/logger.go:249-252 | Whether its own message is accepted or not, a critical call returns only when everything accepted at any moment before its flush has the queue lock is processed, in order. |
| `AsyncLoggerProofs.NothingAfterClose` | src/third/seelog/behavior_asynclogger.go:71-88 | When the dispatcher closes, everything accepted has been processed, and whatever runs afterwards nothing more is accepted or processed. |
| `AsyncLoggerProofs.InvKept` | src/third/seelog/behavior_asynclooplogger.go:34-69 | Every step of every thread keeps the lock discipline of the outer logger, the inner copy and the queue, and what each thread relies on. |
| `AsyncLoggerCalls.FlushReturns` | src/third/seelog/behavior_asynclogger.go:90-97 | In every interleaving: when a flush that found the logger open returns, everything accepted at any moment up to where it has drained the queue is processed, in order; a close too, and then the logger is closed. |
| `AsyncLoggerCalls.LogAccepts` | src/third/seelog/logger.go:283-303 | In every interleaving: a log call at a used level that finds the logger open lets go of it only when its message, and no other since it looked, is accepted. |
| `AsyncLoggerCalls.CallReturns` | src/third/seelog/behavior_asynclogger.go:71-142 | Every call from where it is made to where it returns, whatever runs in between: a flush, a close and a critical log have everything processed that was accepted before; a close leaves the logger closed; a log at a used level has its message accepted, unless the logger is closed. |
| `AsyncLoggerCalls.OnlyUnusedReturnsAtOnce` | src/third/seelog/logger.go:283-303 | Only a log call at an unused level that is not critical returns without doing anything. |
| `AsyncLoggerCalls.LogOnlyAdds` | src/third/seelog/behavior_asynclogger.go:120-142 | A log call that finds room in the queue adds its message and processes none. |
| `AsyncLoggerCalls.AcceptedWasLogged` | src/third/seelog/behavior_asynclogger.go:120-142 | In every interleaving, only messages of log calls at used levels are accepted. |
| `AsyncLoggerCalls.WorkerDrains` | src/third/seelog/behavior_asynclooplogger.go:34-69 | Left alone at the head of its loop, the worker processes the whole queue, in order. |
| `AsyncLoggerCalls.WorkerFindsWork` | src/third/seelog/behavior_asynclooplogger.go:45-69 | In every interleaving, the worker goes on to process only when there is a message or the logger is closed. |
| `FormatCompiler.FormatMeans` | src/third/seelog/format.go:161-305 | For every accepted format string that does not mix doubled symbols with verbs, and whatever the functions say: Format prints the direct left-to-right interpretation. |
| `FormatDeviation.FormatExactly` | src/third/seelog/format.go:161-305 | For every accepted format string whose compiled form holds no width, precision, star or ! behind a symbol: Format prints the interpretation of every message if and only if the format string does not mix doubled symbols with verbs. |
| `FormatDeviation.MixedDeviates` | src/third/seelog/format.go:294-305 | When it does mix them, and every function says z, the output is not the interpretation, whatever other verbs print and whatever note follows. |
| `GoFormat.OneValueAgrees` | src/third/seelog/format.go:294-305 | A single message may hide the deviation: %v %[1]v prints the text %[1]v twice. |
| `FormatCompiler.SameRejections` | src/third/seelog/format.go:161-192 | The compiler rejects exactly the format strings the interpretation rejects. |
| `FormatCompiler.CompiledPieces` | src/third/seelog/format.go:161-192 | The compiled string is the literal pieces of the format string with one %v between them for each stored function, in order; and the interpretation is the same pieces with what these functions say. |
| `FormatCompiler.CompiledSymbols` | src/third/seelog/format.go:161-192 | The compiled string holds as many symbols as there are stored functions and doubled symbols. |
| `FormatCompiler.CompiledPrints` | src/third/seelog/format.go:294-305 | Without doubled symbols the compiled string prints the interpretation. |
| `FormatVerbs.VerbExactly` | src/third/seelog/format.go:194-291 | For every text behind a symbol and every registry: the function chosen is the longest parameterless name among the letters; failing that the longest parameterized one, with the text between the parentheses exactly if these follow; and there is none if and only if no prefix of the letters is a name or the argument is not closed. |
| `FormatVerbs.LetterCodes` | src/third/seelog/format.go:216-232 | Letters are those from A to Z and a to z by code points, and beyond ASCII those that the registry holds. |
| `Formatter.FindName` | src/third/seelog/format.go:234-245 | Shortening the letters finds the longest prefix that is a registered name. |
| `Formatter.FormatterObject.ExtractLetterSequence` | src/third/seelog/format.go:216-232 | Collects exactly the letters from the index on, with those beyond a-z and A-Z that the registry holds. |
| `Formatter.FormatterObject.FindParameterAt` | src/third/seelog/format.go:275-291 | Finds the text up to the first closing parenthesis, no parameter, or an unmatched one. |
| `Formatter.FormatterObject.ExtractFormatterFunc` | src/third/seelog/format.go:194-214 | Chooses the longest parameterless name, and only failing that the longest parameterized one with its argument. |
| `Formatter.FormatterObject.BuildFormatterFuncs` | src/third/seelog/format.go:161-192 | The loop over the format string stores the compiled string and functions of the specification, or fails with it. |
| `Formatter.FormatterObject.FormatMessage` | src/third/seelog/format.go:294-305 | Calls the stored functions in order and prints their values. |
| `BufferedWriter.StreamLaw` | src/third/seelog/writers_bufferedwriter.go:82-147 | Over any sequence of writes and flushes: what the inner writer received, followed by the buffer, is everything written; the buffer never exceeds its size; and every inner write is a concatenation of whole messages. |
| `BufferedWriter.WriteHolds` | src/third/seelog/writers_bufferedwriter.go:95-116 | One write keeps the grouping of the output into whole messages. |
| `BufferedWriter.WriteExactly` | src/third/seelog/writers_bufferedwriter.go:95-116 | A message that fits the space left only reaches the buffer; one that fits the empty buffer sends off what was buffered, as one write; a larger one is passed on by itself behind that. |
| `BufferedWriter.RunPacks` | src/third/seelog/writers_bufferedwriter.go:95-116 | Over any sequence of writes: two inner writes in a row, and the last one with the buffer, are more than the buffer takes, so none could have waited. |
| `BufferedWriter.BufioKeeps` | src/third/seelog/writers_bufferedwriter.go:95-116 | The library's Write by itself, whatever is buffered and however long the bytes: nothing is lost and the buffer stays within its size. |
| `BufferedWriter.BufferedWriterObject.Write` | src/third/seelog/writers_bufferedwriter.go:95-116 | Flushes first when the message does not fit, passes big messages on whole, and reports the buffered bytes too for a big message. |
| `BufferedWriter.ReportedExactly` | src/third/seelog/writers_bufferedwriter.go:95-116 | The reported count is that of the message if and only if the message is not larger than the buffer or nothing is buffered; the excess is what was flushed before it. |
| `BufferedWriter.BufferedWriterObject.BufferWrite` | src/third/seelog/writers_bufferedwriter.go:95-116 | bufio's own loop, which fills the buffer and passes on what exceeds it, does what the specification says. |
| `BufferedWriter.BufferedWriterObject.WriteBigChunk` | src/third/seelog/writers_bufferedwriter.go:82-93 | The buffer is flushed before the big message is passed on. |
| `BufferedWriter.BufferedWriterObject.Flush` | src/third/seelog/writers_bufferedwriter.go:127-133 | Leaves the buffer empty and its former contents at the end of what the inner writer received. |
| `BufferedWriter.BufferedWriterObject.FlushBuffer` | src/third/seelog/writers_bufferedwriter.go:135-147 | Passes the buffer on as one write, and nothing when it is empty. |

## Left out

- TomlTextRoundTrip.TextRoundTrip: keys hold no backslash and no end of line, because the encoder does not escape them. With any other key other statements are read (`TomlReadExactly.TextReadExactly`); that the tables built from those always differ too is not proved. `TomlReplay.EncodeThenParse` covers all keys at the level of statements.
- TomlArrayText.ElementRoundTrip: floats and datetimes are carried as their texts, so the conversion of a float to its shortest text is not modelled; infinities and NaN have no text that is read back.
- TomlStrings.StringLine: what a multi-line string with line escapes means is given by `TomlStrings.LineEscapeStripped`, escape by escape; lexer and parser treat an escaped carriage return differently, and the bug exit that this leaves is named in `TomlValues.ScalarSafe`.
- TomlEndings.EveryInput: the exact conditions are on the text and the item where the parser asks the lexer last; on the whole text, that it is calm is sufficient only, and which texts are read to their end is exact (`TomlGrammar.AcceptedExactly`). Error messages, line numbers and the table of types (setType), which no branch of the parser reads, are not modelled; all lexical errors have one text.
- TomlLexerObject.Lexer.NextItem: characters of more than one byte; after two quotes the program backs up by the width of the last character, which is wrong for those.
- Glob.MatcherComplete: one direction for patterns with several asterisks in general. There the border is not the exact condition (`GlobBorders.SharedLetterComplete`); the exact condition is proved where the parts before the last asterisk can stand in one place only (`GlobBorders.BorderExactly`).
- RollingProofs.KeepsSuffix: file operations succeed, and the numbers stay below the int limit.
- TunnelProofs.UpstreamSafety: bodies of requests and responses are whole; a body read error is the end of the body in the program.
- TunnelProofs.DownstreamSafety: response bodies are delivered whole; handlers that are left waiting after an error are not followed further.
- TunnelProofs.PollTokenNeverLost: safety only; nothing is claimed about when a waiting goroutine wakes up.
- TunnelTransport.Transport: that there is a run that carries the bytes, not that every fair run does, since the network may never deliver a request.
- AsyncLoggerCalls.CallReturns: what holds when a call returns; that it returns depends on the scheduler.
- AsyncLoggerProofs.CriticalCovers: a critical call after Close still flushes through the inner logger, whose own closed flag is never set; the text of messages is not modelled.
- FormatDeviation.FormatExactly: widths, precisions, `*`, argument indexes not before `v`, and `!` behind a symbol are not modelled; for compiled strings with those only the direction of `FormatCompiler.FormatMeans` is proved. Of what another verb prints, only how it can start. The formatter functions are parameters.
- BufferedWriter.StreamLaw: inner writes succeed; the periodic flush is a flush like any other.
- TypeFieldRules.TypeFieldsExactly: type names and the cache of results are not modelled; a struct type is a number.
- The tunnel and the asynchronous logger are modelled on values, one record for each object, since their objects are shared between goroutines.
- Nested tables of the parser are values: an inner map is rebuilt along its path instead of being updated through a shared reference.
- Sockets, HTTP, timers, connection set-up, zip, XML configuration and file system calls: abstract steps or an abstract directory.
- Reflection: decoding into structs, encoding of structs, and metadata about undecoded keys.
- The date roller, adaptive and timer loggers, level constraints, SMTP, connection and console writers, and the encryption filter, whose hooks return their input.
