# A verified model of nomlog

nomlog is a small language for log pipelines. A script such as

    source as in file.File "app.log"
    cut in set (level=0, time=1)
    dupe in as a and b

is lexed, parsed and executed: every statement adds iterators to a table, and the iterators hand log
entries on to each other through channels. The files beside this one model four parts of it in Dafny and
prove what can be relied on.

**The language** (`Runes`, `Tokens`, `LexBuf`, `LexSpec`, `Lexer`, `LexTheorems`, `LexPrint`, `Syntax`,
`Values`, `Forms`, `Decode`, `ParseSpec`, `TokenStream`, `Parser`, `Grammar`, `Refusals`, `RoundTrip`, `Commas`,
`Dsl`). The ring buffer, the lexer, the push-back stream and the parser are classes with the fields and the
loops of the program. Each layer is proved equal to functions on the text, the tokens and the scope: the buffer
is a sliding window, the lexer posts `LexSpec.Lex(text, size - 1)`, the parser does `ParseSpec.ReadScript`. The
theorems are about those functions: which texts the window can hold, what a run loses, that printing and lexing
undo each other, that the parser accepts exactly what the grammar derives within the rules of scope and with
which error it refuses the rest, what numbers and quoted texts stand for, and that the canonical text of a node
parses to the same node.

**The runtime** (`RuntimeSpec`, `Runtime`, `Dataflow`, `Meaning`, `Simulation`, `Checks`, `Witnesses`,
`Script`). `Runtime.Runtime` is the interpreter with its identifier table; an iterator is known by the call that
returned it, and the table keeps the list of calls that were made. The theorems relate the runtime's checks to
the parser's, a dry run to a run, follow every iterator through a whole run, and say what the iterators then
yield: the runtime does what the statements mean.

**The concurrent combinators** (`Shuffles`, `Merge`, `Dupe`, `DupeOrder`, `Fanout`, `FanoutMerge`, `DupeMerge`).
Each is a step relation over the program counters of its goroutines, the permits of its semaphore and the ends
of its channels; an unbuffered send and its receive are one step. The theorems hold in every state of every run,
under any scheduling.

**The sequential transducers** (`JoinSpec`, `Joiner`, `Concat`, `Cut`). They are objects that change in place,
proved equal to functions on whole streams and entries.

## What the proofs found

Where the code does not do what its documentation says, the model follows the code. The exact conditions are
theorems.

- An identifier that spells a keyword lexes as an identifier only while its chunk goes on behind it, as in
  `to=1`. The canonical text of a script parses to the same nodes exactly if it fits into the buffer and every
  such identifier stands directly in front of a comma (`RoundTrip.ScriptRoundTrip`;
  `RoundTrip.KeywordFieldFails` is a text that parses and whose canonical text does not).
- The buffer drops the oldest runes of a token that is longer than it; a run without an error token loses
  nothing exactly if every token, with the rune behind it, fits and the text does not end inside an escape
  (`LexTheorems.NothingLostIff`). A word that is too long is cut to its last letters without any error, and
  what is left may be a keyword (`LexTheorems.LongWordIsCut`); a text that ends in a backslash inside a string
  ends in a plain EOF (`LexTheorems.EscapeAtEndIsLost`).
- The grammar in `runtime/dsl/grammar.md` has no comma behind the last argument; the parser takes one. Of the
  scripts that parse, the grammar derives exactly those in which no comma stands directly in front of the end
  of a line or of the text (`Commas.WrittenGrammarIff`; `Witnesses.TrailingCommaParses` is one with a comma).
- The parser lets pass a cut of an undefined identifier and an append to a consumed one. These are the only
  ways in which a script that parses fails on an identifier at run time (`Simulation.ParsedTextRuns`);
  `Witnesses.UnknownCutParses` and `Witnesses.LateAppendFails` are a text for each.
- An append of an iterator to itself parses and runs (`Witnesses.SelfAppendRuns` is a text). It is the only way
  in which a script hands an iterator over twice, and whether it does can be told from the text
  (`Simulation.ParsedTextLinear`, `Simulation.ParsedTextLinearIff`).
- The parser never sets the `Async` flag of a sink. In every script, an asynchronous sink has the node of a
  synchronous one, whose failing call ends the run (`Simulation.SinksCanFail`), and leaving `async` out changes
  no run (`Simulation.AsyncIsIgnored`); `Witnesses.AsyncSinkFails` is a text whose run ends so.
  `Dataflow.LateLookup` is about nodes that have the flag set by other means.
- The usage text promises that a dry run reports errors as a run would. It does, exactly if none of the calls
  that the run will make for sources and synchronous sinks fails, as far as the dry run gets
  (`Dataflow.DryRunPredictsIff`; `Dataflow.FailingSource` is a node for which it does not). But it leaves its
  identifiers in the table, so that the same script cannot be executed on that runtime afterwards
  (`Dataflow.SecondRunIff`).
- The two outputs of a dupe, "two identical iterators" in its comment, are certain to be identical only if
  they are read in turns. The first output keeps the order of the source if it is read only while the second
  is not ahead of it, the second if it is read only while the first is not two ahead
  (`DupeOrder.OrderIsKept`). Both conditions are exact: otherwise, unless the source has ended, an entry may
  be overtaken by the next one (`DupeOrder.OvertakingIff`, `DupeOrder.OrderBreaks`), and from then on by any
  number (`DupeOrder.OvertakenByAny`). Readers who take turns get identical outputs and never wait for each
  other (`DupeOrder.TurnsGiveIdentical`, `DupeOrder.TurnsNeverStick`); any reading out of turn gives that up
  (`DupeOrder.OutOfTurnIff`). A reader who finishes one output before the other gets at most two entries of
  the first, or one of the second (`Dupe.OneReaderStarves`).
- The value of a quoted text is found by five replacements, one after the other. They give the usual reading
  of escapes exactly if no r, n or t stands behind an escaped backslash (`Values.EscapeIff`);
  `Values.MisreadPath` is a path that comes out with a newline in it.
- Behind a fanout and a merge, at most four entries are on their way at any time, but one of them may be
  overtaken by all others (`FanoutMerge.InFlight`, `FanoutMerge.OvertakenByAll`).
- The joiner loses an error that arrives while a message is open (`JoinSpec.ErrorsAreLost`).
- The comment on `CutCollectSpec` says that unmapped fields are ignored; they become the new message
  (`Cut.KeepsTheRest`).

## Model

| member | source | states |
|---|---|---|
| RuneBuffer.LexBuf.ReaderRead | runtime/dsl/lexbuf.go:43-55 | fetching a rune into the ring moves the end of the window by one, and its start only when the ring is full |
| RuneBuffer.LexBuf.Peek | runtime/dsl/lexbuf.go:67-77 | the rune at the read position of the text, or end of file exactly at its end |
| RuneBuffer.LexBuf.Read | runtime/dsl/lexbuf.go:57-65 | delivers the text rune by rune; the window keeps the last size-1 runes and always the one just read, so that an unread can give it back |
| RuneBuffer.LexBuf.Unread | runtime/dsl/lexbuf.go:79-85 | steps back one rune, but not past the start of the window |
| RuneBuffer.LexBuf.Reset | runtime/dsl/lexbuf.go:87-89 | goes back to the start of the window |
| RuneBuffer.LexBuf.Discard | runtime/dsl/lexbuf.go:91-93 | starts the window at the read position |
| RuneBuffer.LexBuf.Preview | runtime/dsl/lexbuf.go:101-110 | the text between the start of the window and the read position, also where the ring wraps around |
| RuneBuffer.LexBuf.Consume | runtime/dsl/lexbuf.go:95-99 | returns that text and gives it up |
| RuneBuffer.LexBuf.SkipWhitespace | runtime/dsl/lexbuf.go:112-124 | skips exactly the blanks ahead, not newlines, and starts a new token behind them |
| RuneBuffer.LexBuf.ReadUntilWhitespaceOrBreak | runtime/dsl/lexbuf.go:126-147 | reads the longest run of runes that do not end a chunk |
| RuneBuffer.LexBuf.Accept | runtime/dsl/lexbuf.go:149-167 | reads the longest run of runes of a class; the window has moved only if the run and the rune behind it did not fit |
| RuneBuffer.LexBuf.AcceptOne | runtime/dsl/lexbuf.go:169-182 | reads at most one rune of a class |
| Runes.SpanIsLongest | runtime/dsl/lexbuf.go:149-167 | the length of a run is the only one such that all runes before it are in the class and the one behind it is not |
| Lexer.Lexer.PostToken | runtime/dsl/lexer.go:92-95 | posts the consumed text with the current line |
| Lexer.Lexer.HandleLexErr | runtime/dsl/lexer.go:97-106 | posts EOF for the end of the file and otherwise an error token that quotes what was read |
| Lexer.Lexer.ReadString | runtime/dsl/lexer.go:172-198 | a string ends at the first quote that no backslash escapes; unterminated strings and a trailing backslash are told apart |
| Lexer.Lexer.ReadNumber | runtime/dsl/lexer.go:200-214 | an integer or a decimal of the greatest length, or the error for a missing digit |
| Lexer.Lexer.ReadKeywords | runtime/dsl/lexer.go:216-262 | a keyword is a whole chunk; otherwise the longest identifier at the head of the chunk, or an error that names the chunk |
| Lexer.Lexer.ReadIdentifier | runtime/dsl/lexer.go:264-271 | the longest identifier at the read position, within the chunk |
| Lexer.Lexer.LexRound | runtime/dsl/lexer.go:128-168 | one round of the loop posts the next token of the rest of the text and shortens it, or posts the last one |
| Lexer.Lexer.Lex | runtime/dsl/lexer.go:122-170 | the loop ends, having posted all tokens of the rest of the text |
| Lexer.LexString | runtime/dsl/lexer.go:82-170 | for every text and every buffer size from 2 on, the tokens posted are those of the function Lex |
| LexTheorems.StepIsIdealIffFits | runtime/dsl/lexbuf.go:43-55 | a step through the window gives what it gives on the unbounded text exactly if all that it looks at fits |
| LexTheorems.FittingRunIsIdeal | runtime/dsl/lexer.go:122-271 | if every step fits, the tokens are those of the unbounded text |
| LexTheorems.NothingLostIff | runtime/dsl/lexer.go:122-198 | a run without an error token keeps the whole text, up to blanks between tokens, exactly if every step fits and the text does not end inside an escape |
| LexTheorems.LongWordIsCut | runtime/dsl/lexbuf.go:43-55 | a word of more letters than the buffer keeps is posted as its last letters, a keyword if they spell one, without any error |
| LexTheorems.EscapeAtEndIsLost | runtime/dsl/lexer.go:172-198 | of a quote and a backslash nothing is posted but EOF |
| LexTheorems.LineCountsLineEnds | runtime/dsl/lexer.go:138-141 | the line of every token is one more than the number of EOL tokens before it |
| LexTheorems.LexIsWellEnded | runtime/dsl/lexer.go:122-170 | the channel carries exactly one EOF or error token, the last |
| LexPrint.ScanPrinted | runtime/dsl/lexer.go:132-168 | a well-formed token in front of a rune that does not continue it is what the lexer finds |
| LexPrint.RunIsWellFormed | runtime/dsl/lexer.go:122-271 | all tokens of a run that fits, but the last, are well formed |
| LexPrint.PrintThenLex | runtime/dsl/lexer.go:122-271 | printing separated, well-formed tokens and lexing the print gives their texts and types back, but for identifiers that then stand as a keyword |
| LexPrint.SpacedRoundTrip | runtime/dsl/lexer.go:122-271 | well-formed tokens printed with single spaces lex back to themselves and EOF exactly if the print fits into the buffer and no identifier spells a keyword |
| LexPrint.SpacedFits | runtime/dsl/lexbuf.go:43-55 | such a print fits if every token leaves one rune of the buffer free |
| Forms.ClosesIff | runtime/dsl/lexer.go:172-198 | a string closes at the first quote behind an even number of backslashes; without one, the text ends behind a backslash that escapes nothing exactly if it ends in an odd number of them |
| Forms.IntIff | runtime/dsl/lexer.go:200-207 | integers are one or more digits, behind a minus or not |
| Forms.DecimalIff | runtime/dsl/lexer.go:200-214 | decimals are an integer, a point and one or more digits |
| Forms.IdentifierIff | runtime/dsl/lexer.go:264-271 | identifiers are a letter or an at sign and then letters, digits and underscores |
| Forms.NothingPostedIff | runtime/dsl/lexer.go:122-170 | nothing but EOF is posted exactly for white space without newlines, alone or in front of a string that ends in the middle of an escape |
| Forms.UnterminatedSays | runtime/dsl/lexer.go:172-182 | the error token of a string that is not closed quotes it |
| Forms.NoDigitSays | runtime/dsl/lexer.go:200-204 | the error token of a minus without a digit, whatever follows |
| Forms.NoFractionSays | runtime/dsl/lexer.go:205-211 | the error token of an integer and a point without a digit, whatever follows |
| Forms.UnknownSays | runtime/dsl/lexer.go:255-259 | the error token of a chunk that starts with no rune of the language names the chunk |
| Streams.TokenStream.Next | runtime/dsl/tokens.go:26-47 | takes the first token of the content; a closed channel gives EOF, and the first error stays for ever |
| Streams.TokenStream.Peek | runtime/dsl/tokens.go:20-24 | the same token, with the content kept |
| Streams.TokenStream.PushBack | runtime/dsl/tokens.go:49-57 | the tokens stand in front of the content, the last one first; an error stays alone |
| Parser.Reject | runtime/dsl/ast.go:248-258 | giving back what was just read restores the tokens ahead, at the cost of one slot |
| Parser.Ast.AppendSpace | runtime/dsl/ast.go:211-213 | the collected text is the print of the collected tokens |
| Parser.Parser.ParseClass | runtime/dsl/ast.go:345-370 | reads a class, or gives its tokens back in order with at most three slots, unless the lexer failed |
| Parser.Parser.ParseArg | runtime/dsl/ast.go:278-313 | a literal with its value or a known identifier; any other token is given back |
| Parser.Parser.ParseArgs | runtime/dsl/ast.go:315-337 | the arguments up to the first token that cannot go on the list, a trailing comma included |
| Parser.Parser.ParseRequiredEol | runtime/dsl/ast.go:241-258 | the end of a line or of the text, or an error after which the token is still ahead |
| Parser.Parser.ParseSource | runtime/dsl/ast.go:379-430 | the tokens, the scope and the node of the specification; its text is the canonical one; another token is given back |
| Parser.Parser.ParseSink | runtime/dsl/ast.go:473-555 | the same for sinks, synchronous or not |
| Parser.Parser.ParseMerge | runtime/dsl/ast.go:564-630 | the same for merge |
| Parser.Parser.ParseDupe | runtime/dsl/ast.go:638-702 | the same for dupe |
| Parser.Parser.ParseAppend | runtime/dsl/ast.go:708-753 | the same for append; the target need not be live |
| Parser.Parser.ParseCut | runtime/dsl/ast.go:761-857 | the same for cut; the source need not be defined |
| Parser.Parser.ParseFields | runtime/dsl/ast.go:804-851 | the settings as a map in which later ones win, and their canonical text; a parenthesis in the place of a setting is an error |
| Parser.Parser.ParseFanout | runtime/dsl/ast.go:865-928 | the same for fanout; another token is not given back |
| Parser.Parser.ParseTag | runtime/dsl/ast.go:935-976 | the same for tag |
| Parser.Parser.ParseJoin | runtime/dsl/ast.go:983-1027 | the same for join |
| Parser.Parser.ParseJoinPatterns | runtime/dsl/ast.go:1029-1051 | one or more patterns that compile, with no comma behind the last |
| Values.IntTokenSpells | runtime/dsl/ast.go:293-299 | every integer token spells its value in decimal digits, with a minus or leading zeros or not, and no other number |
| Values.FitsInt64 | runtime/dsl/ast.go:293-299 | it is accepted exactly if the value fits into 64 bits with a sign |
| Values.EscapeIff | runtime/dsl/ast.go:268-276 | the five replacements, one after the other, give what reading escapes from left to right gives exactly if no r, n or t stands behind an even number of backslashes other than none |
| Values.PlainText | runtime/dsl/ast.go:268-276 | a text without backslashes is its own value |
| Values.FiveEscapes | runtime/dsl/ast.go:268-276 | what each of the five escapes gives |
| Values.MisreadPath | runtime/dsl/ast.go:268-276 | a path with escaped backslashes whose value has a newline in it |
| Values.FieldsSayIt | runtime/dsl/ast.go:278-313 | the fields of the node of a statement say what was written: names, arguments with their values, delimiter, tag, patterns, and for each field of a cut its last setting |
| Parser.Parser.Parse | runtime/dsl/ast.go:78-159 | the loop ends with the nodes and the scope of the whole script, or its first error; no more than three slots of the push-back buffer are ever in use |
| Grammar.StmtTakes | runtime/dsl/ast.go:379-1051 | a statement that was read is a line of the grammar, keeps the rules of scope and leaves the scope that they give |
| Grammar.StmtReads | runtime/dsl/ast.go:379-1051 | a line of the grammar that keeps the rules of scope is read as what it is |
| Grammar.ParserIsGrammar | runtime/dsl/grammar.md:41-58 | parsing succeeds exactly if the tokens are derived by lines of the grammar, with an optional comma behind arguments, that keep the rules of scope; the derivation gives the result |
| Refusals.NoErrIff | runtime/dsl/ast.go:379-1051 | a statement keeps the rules of scope exactly if none of its rules, taken from left to right, is broken |
| Refusals.StmtRefused | runtime/dsl/ast.go:379-1051 | a line of the grammar whose literals have values and that breaks rules of scope is refused with the error of the first one: undefined, already consumed or already defined |
| Refusals.ScriptRefused | runtime/dsl/ast.go:78-159 | a script is refused for the first line that breaks a rule of scope, with that error, whatever stands behind it |
| RoundTrip.LexIsReady | runtime/dsl/lexer.go:122-271 | whatever the text, the lexer posts what the parser expects |
| RoundTrip.StmtShapes | runtime/dsl/ast.go:202-219 | the canonical text of a statement consists of the tokens that the grammar derives for it |
| Forms.TextIs | runtime/dsl/ast.go:202-219 | how the canonical text of every kind of statement is written, word by word |
| RoundTrip.TextDetermines | runtime/dsl/ast.go:202-219 | no two statements of well-formed tokens have the same canonical text, whatever their identifiers spell |
| RoundTrip.LinesRoundTrip | runtime/dsl/ast.go:202-219 | the canonical text of lines that keep the rules of scope parses to their nodes exactly if it fits into the buffer and its identifiers are comma-safe; and then to their scope |
| RoundTrip.ScriptRoundTrip | runtime/dsl/ast.go:202-219 | the same for the statements of every text that fits and parses |
| RoundTrip.CanonicalFits | runtime/dsl/lexbuf.go:43-55 | a canonical text fits if each token leaves one rune of the buffer free, and a word directly in front of a comma two |
| RoundTrip.StmtRoundTrip | runtime/dsl/ast.go:202-219 | the canonical text of one statement, in the scope that it was written for |
| RoundTrip.EachStmtRoundTrip | runtime/dsl/ast.go:379-1051 | the same for every statement of an accepted text, in the scope that the ones before it leave |
| RoundTrip.KeywordFieldFails | runtime/dsl/lexbuf.go:126-147 | a field called to: the text parses, its canonical text does not parse |
| Commas.WrittenGrammarIff | runtime/dsl/grammar.md:41-58 | of the tokens that parse, the grammar without the optional comma derives exactly those in which no comma stands directly in front of EOL or EOF |
| Witnesses.TrailingCommaParses | runtime/dsl/ast.go:315-337 | a text that parses and that the grammar does not derive |
| Dsl.ParseString | runtime/dsl/ast.go:51-58 | lexing and parsing a text succeeds exactly if the grammar derives its tokens within the rules of scope, and gives the nodes of the derivation |
| Runtime.Runtime.Start | runtime/runtime.go:79-100 | only a runtime that was just created starts |
| Runtime.Runtime.Stop | runtime/runtime.go:102-129 | only a started runtime stops; the result is the error of the first plugin that fails to |
| Runtime.Runtime.AddSource | runtime/runtime.go:415-420 | the identifier gets a slot of its own |
| Runtime.Runtime.ReplaceSource | runtime/runtime.go:422-424 | only the iterator of that identifier changes |
| Runtime.Runtime.MarkConsumed | runtime/runtime.go:426-431 | only the mark of that identifier changes |
| Runtime.Runtime.ExecuteSource | runtime/runtime.go:159-181 | table, calls and error of a source |
| Runtime.Runtime.ExecuteSink | runtime/runtime.go:182-218 | table, calls and error of a sink: the source is consumed before the class is looked up |
| Runtime.Runtime.ExecuteMerge | runtime/runtime.go:219-241 | table, calls and error of a merge |
| Runtime.Runtime.ExecuteSplit | runtime/runtime.go:242-266 | table, calls and error of a dupe; also of a fanout, lines 304-328 |
| Runtime.Runtime.ExecuteAppend | runtime/runtime.go:267-283 | table, calls and error of an append |
| Runtime.Runtime.ExecuteWrap | runtime/runtime.go:284-351 | table, calls and error of a cut, a tag and a join; in a dry run tag alone replaces the iterator |
| Runtime.Runtime.Execute | runtime/runtime.go:139-360 | nodes are executed up to the first error; none need no started runtime |
| Runtime.Runtime.DryRun | runtime/runtime.go:433-439 | the same as a dry run, after which runs are real again |
| Simulation.ParsedStmts | runtime/dsl/lexer.go:264-271 | the statements of a text that parses keep the rules of scope, and none of their identifiers is blank |
| Simulation.FaultsOf | runtime/runtime.go:385-408 | on a table that follows the scope: an identifier can be used exactly if it is not blank and live, and is otherwise refused as blank, consumed or undefined; it can be defined exactly if it is neither blank nor known, be it consumed or not |
| Simulation.StepFollows | runtime/runtime.go:158-357 | on a table that follows the scope, a statement in scope fails on an identifier exactly if it is a cut of an unknown or an append to a consumed one; otherwise the table follows on |
| Simulation.RunFollows | runtime/runtime.go:139-360 | the same over whole runs: the first such statement is where an identifier is at fault |
| Simulation.EveryPrefixFollows | runtime/runtime.go:139-360 | after every node that a run gets past, the table knows and has consumed what the parser says |
| Simulation.ParsedTextRuns | runtime/runtime.go:131-137 | a text that parses, executed on a fresh runtime, succeeds exactly if there is no such statement, if plugins do not fail |
| Simulation.ParsedTextLinear | runtime/runtime.go:267-283 | its run hands no iterator over twice exactly if no executed append names one iterator as both source and target |
| Simulation.ParsedTextLinearIff | runtime/runtime.go:267-283 | if plugins do not fail, it can be told from the statements: exactly if none is an append of an iterator to itself before the first that the runtime refuses |
| Simulation.SinksCanFail | runtime/dsl/ast.go:473-555 | in every text that parses, exactly the sinks, asynchronous or not, become nodes for sinks whose failing call ends a run |
| Simulation.AsyncIsIgnored | runtime/dsl/ast.go:473-555 | with every asynchronous sink made synchronous, every run is the same: calls, table and error |
| Simulation.NodesSay | runtime/dsl/ast.go:278-313 | the same for every node of every text that parses |
| Meaning.YieldsStays | runtime/runtime.go:267-283 | what an iterator yields is settled by the call that returned it and the calls before |
| Meaning.AppendMeans | runtime/runtime.go:267-283 | after an append the target yields what it yielded before, and behind that what the source yielded; an iterator appended to itself is gone |
| Meaning.StepMeans | runtime/runtime.go:158-357 | every node that does not fail does what its statement means: which streams have a name behind it and what they yield, what each call is given, and what a sink is given |
| Meaning.RunMeans | runtime/runtime.go:139-360 | the same behind every node that a run gets past, whatever plugins do |
| Meaning.ConcatChains | pkg/iterator/interceptor.go:48-65 | the iterator that Concat makes gives what an append is said to yield, numbered from zero |
| Simulation.ParsedTextMeans | runtime/runtime.go:131-137 | the same for every text that parses, executed on a fresh runtime |
| Checks.RefusedForFirst | runtime/runtime.go:385-408 | a node is refused for the first of its identifiers, in the order of the checks, that cannot be used or defined; the table is then as it was |
| Checks.ParserChecksIff | runtime/dsl/ast.go:379-1051 | but for rules of its own, the parser takes a statement exactly if the runtime takes its identifiers, or if it is one of the two kinds that offend |
| Checks.FailedStep | runtime/runtime.go:159-218 | a node that fails for its plugin has defined nothing, a sink has consumed its source, and only a call that failed was made |
| Checks.DryRunTags | runtime/runtime.go:329-339 | a dry run makes the calls of the tags that it executes and no others |
| Witnesses.UnknownCutParses | runtime/dsl/ast.go:783-789 | a text that parses and fails at run time on an undefined identifier |
| Witnesses.LateAppendFails | runtime/dsl/ast.go:737-745 | a text that parses, is never executed to the end, and fails on a consumed identifier if plugins do not fail |
| Witnesses.SelfAppendRuns | runtime/runtime.go:267-283 | a text that parses, runs to its end if plugins do not fail, and hands an iterator over twice |
| Witnesses.AsyncSinkFails | runtime/runtime.go:197-217 | a text with an asynchronous sink, whose run ends in the failed call of that sink |
| Witnesses.AppendPairYields | runtime/runtime.go:282 | a text that appends one source to another: the target then yields its own entries first |
| Dataflow.DryRunPredictsIff | runtime/runtime.go:433-439 | from tables that differ only in their iterators, a dry run and a run agree on the error, the node, the identifiers and the marks exactly if no call fails that a source or a synchronous sink among the nodes that the dry run gets past is going to make; the number of that call is known from the nodes before it |
| Dataflow.FailsIff | runtime/runtime.go:172-217 | a run ends with a failed call exactly if one of those calls fails |
| Dataflow.FailingSource | runtime/runtime.go:172-179 | a source whose call fails: a dry run finds nothing wrong, a run does |
| Dataflow.StepLinear | runtime/runtime.go:219-283 | a step that does not feed an iterator to itself keeps handed and live iterators distinct |
| Dataflow.LinearIff | runtime/runtime.go:139-360 | over a run, no iterator is handed over twice exactly if no executed node merges or appends one to itself |
| Dataflow.ConsumedStays | runtime/runtime.go:410-431 | once an identifier is consumed, no later node changes what stands behind it |
| Dataflow.LateLookup | runtime/runtime.go:197-213 | an asynchronous sink finds the iterator that stood there when it was issued, however late it looks it up |
| Dataflow.SecondRunIff | runtime/runtime.go:433-439 | nodes that ran, as a dry run or not, run again on the same runtime exactly if none of them defines or consumes an identifier |
| Script.ExecuteString | runtime/runtime.go:131-137 | from the text to the table: execution succeeds exactly if the text is derived and none of its statements is of the two kinds, if plugins do not fail; whenever it succeeds, the streams and the sinks have what the statements mean |
| Shuffles.ShuffleConserves | pkg/iterator/iterator.go:113-143 | an interleaving has exactly the entries of both sides |
| Merge.StepInv | pkg/iterator/iterator.go:97-143 | what every step of merge keeps |
| Merge.MergeInterleaves | pkg/iterator/iterator.go:82-143 | in every state of every run, delivered and travelling entries interleave prefixes of both inputs in order, with indices 0, 1, 2; the output closes only behind all of both inputs |
| Merge.OnlySourcesAreWaitedFor | pkg/iterator/iterator.go:123-141 | merge is never stuck but for its sources |
| Merge.NobodyWaitsForTurns | pkg/iterator/iterator.go:101-141 | in every reachable state either source can give any entry or end, and every entry in the hand of a feeder can be received next |
| Merge.InterleavingsIff | pkg/iterator/iterator.go:82-143 | what merge can deliver up to its end are exactly the interleavings of its inputs |
| Merge.Unread | pkg/iterator/iterator.go:97-143 | without a reader, merge takes at most three entries |
| Merge.UnreadPullsThree | pkg/iterator/iterator.go:97-143 | and it can take three |
| Merge.RunLength | pkg/iterator/iterator.go:97-143 | every run makes three steps for each entry and a bounded number of others, so that it ends if its inputs do |
| Dupe.StepInv | pkg/iterator/iterator.go:149-183 | what every step of dupe keeps: permits, sends in flight and what was delivered |
| Dupe.DupeIsSafe | pkg/iterator/iterator.go:149-183 | in every state of every run: at most two sends in flight, the outputs at most two entries apart, nothing in flight to a closed output, and both outputs complete, each entry once, when one is closed |
| Dupe.OneReaderStarves | pkg/iterator/iterator.go:168-180 | if the second output is never read, the first gets at most two entries; if the first is never read, the second gets at most one; neither is ever closed, unless the source is empty |
| Dupe.NobodyWaitsForTurns | pkg/iterator/iterator.go:153-181 | in every reachable state, every entry in flight to an output can be read from it next, and the source can go on as soon as it is waited for |
| Dupe.TwoForTheFirst | pkg/iterator/iterator.go:168-180 | there is a run in which the second output is never read and the first gets two entries |
| Dupe.OneForTheSecond | pkg/iterator/iterator.go:168-180 | and one in which the first is never read and the second gets one |
| Dupe.OnlyTheSourceIsWaitedFor | pkg/iterator/iterator.go:149-183 | if both outputs are read, dupe is never stuck but for its source |
| Dupe.RunLength | pkg/iterator/iterator.go:149-183 | every run makes seven steps for each entry and a bounded number of others, so that it ends if its source does |
| DupeOrder.OrderIsKept | pkg/iterator/iterator.go:144-147 | in every run in which the first output is read only while the second is not ahead of it, it gives the entries in the order of the source; so does the second if it is read only while the first is not two ahead |
| DupeOrder.OvertakingIff | pkg/iterator/iterator.go:168-180 | in every reachable state, a newer entry can come to be offered beside an older one before anything else is read, on the first output exactly if the second is ahead and the source has not ended, on the second exactly if the first is two ahead |
| DupeOrder.OrderBreaks | pkg/iterator/iterator.go:168-180 | every run that has come to such a state goes on, in some schedule, to one in which that output is out of order |
| DupeOrder.TurnsGiveIdentical | pkg/iterator/iterator.go:144-147 | readers who take turns get identical outputs: the same entries in the order of the source at any time, and all of them at the end |
| DupeOrder.OutOfTurnIff | pkg/iterator/iterator.go:168-180 | no other way of reading is safe: after a run of turns, the next reading opens the way to overtaking exactly if it is out of turn, but for the second reader once the source has ended |
| DupeOrder.TurnsNeverStick | pkg/iterator/iterator.go:149-183 | and they never wait for each other: some step is always possible in which nobody reads out of turn |
| DupeOrder.OvertakenByAny | pkg/iterator/iterator.go:168-180 | for every n there is a run in which the first entry arrives behind n later ones |
| Fanout.FanoutSplits | pkg/iterator/iterator.go:188-212 | in every state of every run, the outputs split a prefix of the source in order, each entry going to exactly one of them; all of the source when one is closed |
| Fanout.EitherCanTake | pkg/iterator/iterator.go:201-204 | in every state of every run in which an entry is on offer, each of the two readers can take it |
| Fanout.AnySplit | pkg/iterator/iterator.go:188-212 | every split of every source is given by some run that closes both outputs |
| Fanout.OneReaderSuffices | pkg/iterator/iterator.go:188-212 | whichever output is read alone can get the whole source, in its order, with both closed and nothing taken from the other |
| Fanout.RunLength | pkg/iterator/iterator.go:188-212 | every run makes two steps for each entry and a bounded number of others |
| FanoutMerge.StepInv | pkg/iterator/iterator.go:116-212 | what every step of a merge behind a fanout keeps |
| FanoutMerge.Conserves | pkg/iterator/iterator.go:116-212 | merge behind fanout delivers every entry as often as the source gave it |
| FanoutMerge.InFlight | pkg/iterator/iterator.go:116-212 | at most four entries are on their way at any time |
| FanoutMerge.OvertakenByAll | pkg/iterator/iterator.go:116-212 | but the first entry can be delivered behind all others, however many |
| FanoutMerge.OnlyTheSourceIsWaitedFor | pkg/iterator/iterator.go:116-212 | the pipeline is never stuck but for its source |
| FanoutMerge.RunLength | pkg/iterator/iterator.go:116-212 | every run of the pipeline makes four steps for each entry and a bounded number of others, so that it ends if its source does |
| DupeMerge.StepInv | pkg/iterator/iterator.go:116-183 | what every step of a merge behind a dupe keeps |
| DupeMerge.Doubles | pkg/iterator/iterator.go:116-183 | merge behind dupe delivers every entry exactly twice |
| DupeMerge.OnlyTheSourceIsWaitedFor | pkg/iterator/iterator.go:116-183 | the pipeline is never stuck but for its source |
| DupeMerge.RunLength | pkg/iterator/iterator.go:116-183 | every run of the pipeline makes eleven steps for each entry and a bounded number of others, so that it ends if its source does |
| Joiner.JoinerState.SetStart | pkg/iterator/join.go:57-63 | the entry opens a group; without a message its text is empty |
| Joiner.JoinerState.AppendMessage | pkg/iterator/join.go:65-70 | a message is appended on a line of its own |
| Joiner.JoinerState.FinalizeEntry | pkg/iterator/join.go:76-82 | the joined message is written into the first entry, and no group is open |
| Joiner.JoinerState.Round | pkg/iterator/join.go:86-105 | one round of the loop takes one item and does what the step of the specification says |
| Joiner.JoinerState.Next | pkg/iterator/join.go:84-106 | one call returns and takes what the function on the stream says and writes no message but that of the entry it returns; where that entry comes again, the new group starts with what was written |
| Joiner.Iterate | pkg/iterator/iterator.go:34-51 | the callback gets the outputs of the stream in order, up to the first that it answers with an error, or all of them; the result is that error or the one that ended the stream, and none for its end |
| JoinSpec.JoinsGroups | pkg/iterator/join.go:84-106 | the outputs are one for each group of lines, with the entry and the index of its first line and all its messages |
| JoinSpec.HasGroups | pkg/iterator/join.go:9-11 | every stream of entries has such groups, cut in front of every starting line but the first |
| JoinSpec.MessagesBegin | pkg/iterator/join.go:43-55 | an output begins exactly at the first line and at every line behind it whose message a start pattern matches, and is made of the lines up to the next one |
| JoinSpec.MatchingLinesStay | pkg/iterator/join.go:43-55 | lines that all have a message, and all but the first one that matches, come out as they are |
| JoinSpec.MessageIs | pkg/iterator/join.go:65-70 | a joined message is the messages of its lines with newlines between them; lines without one add nothing |
| JoinSpec.ErrorsAreLost | pkg/iterator/join.go:88-93 | an error is reported exactly if no group is open; otherwise it ends the group and what follows is joined as a stream of its own |
| JoinSpec.JoinTwiceIff | pkg/iterator/join.go:43-55 | joining twice is joining once exactly if every joined message but the first still starts a message |
| JoinSpec.JoinTwice | pkg/iterator/join.go:43-55 | it is if a pattern that matches still matches when lines are appended |
| Concat.Iter.Next | pkg/iterator/interceptor.go:48-65 | one call on a source or on any nesting of concatenations, of an iterator with itself too, is that of the stream value |
| Concat.AgainGivesOnce | pkg/iterator/interceptor.go:48-65 | a source behind itself gives what it gives alone, if it has no end but its last |
| Concat.ErrorsComeThrough | pkg/iterator/interceptor.go:50-60 | an error of the first stream other than its end is returned, the second stream is left as it was, and the first goes on behind the error |
| Concat.Associative | pkg/iterator/interceptor.go:48-65 | three streams in either bracketing give the same results, indices and errors, call by call, whatever they give |
| Concat.Contiguous | pkg/iterator/interceptor.go:48-65 | streams numbered from zero give all entries numbered from zero, and then the end for ever |
| Cut.JoinSplit | pkg/entries/cut.go:136 | joining what was split gives the string back, for every delimiter |
| Cut.PartsAreFree | pkg/entries/cut.go:136 | no part of a split has the delimiter in it, and the first part ends where it stands first |
| Cut.FieldsAreParts | pkg/entries/cut.go:136-147 | the fields of a message are the parts between its delimiters that are not empty, whatever the delimiter |
| Cut.KeepsNonBlank | pkg/entries/cut.go:138-147 | exactly the parts that are not empty are kept, each as often as it is there and in their order |
| Cut.LogEntry.Collect | pkg/entries/cut.go:77-105 | the mapped fields are written into the entry, the others are returned, joined by spaces |
| Cut.LogEntry.Cut | pkg/entries/cut.go:117-155 | the entry after a cut; one without a message stays as it is |
| Cut.DropBlank | pkg/entries/cut.go:138-147 | exactly the fields that are not empty, in order |
| Cut.KeepsTheRest | pkg/entries/cut.go:77-105 | the new message has exactly the fields that neither i nor i-n maps, in their order |
| Cut.BuildSpec | runtime/runtime.go:293-297 | whatever the order in which a map is walked, the specification is that of some order of its settings |
| Cut.OrderMattersIff | pkg/entries/cut.go:65-75 | the order does not matter exactly if no two settings have the same number |
| Cut.CutWrites | pkg/entries/cut.go:70-105 | with different numbers, each name gets the field at its place from the start or from the end; all else but the message is left alone |
| Cut.CutAtRune | pkg/entries/cut.go:117-155 | without settings, a cut at a rune replaces it by a space between the fields |
| Cut.CutPlaces | pkg/entries/cut.go:117-155 | with settings of different numbers, each name gets the field at its place among those that the rune separates, and the others make up the message |
| Cut.CutExample | pkg/entries/cut.go:117-155 | the message a,b cut at the comma |
| Cut.CutTwice | pkg/entries/cut.go:117-155 | cutting at spaces without settings a second time changes nothing |

## Left out

- Lexer.LexString: tokens have no position, and lines are as the lexer counts them, without the newlines inside strings.
- Dsl.ParseString: nodes have neither line nor position, errors are kinds without their message, and the nodes before a lexer error are not part of the result.
- Parser.Parser.ParseArg: ParseFloat and the regexp package are parameters of the model; a number argument has its text and not its value.
- Runtime.Runtime.Execute: logging, and what a plugin does beyond succeeding or failing; the arguments of a call are passed on as they are.
- Runtime.Runtime.Stop: cancelling the context and waiting for asynchronous sinks; what plugins answer to being stopped is a parameter.
- Fanout.FanoutSplits: draining the source after an error, which no output sees.
- Cut.LogEntry.Cut: fields are strings; as any other value has a string form, the error for a field without one cannot arise. The options that the runtime does not set are not modelled.
- Joiner.JoinerState.Next: entries have a message and no other field.
- Joiner.Iterate: no entry comes twice in one stream, as one may behind a dupe and a merge; the callback answers by its count of calls and changes no entry; draining the stream behind its error goes on in the background and is not modelled.
- Concat.Iter.Next: two iterators that share a part, but are not the same one.
- Reading errors other than the end of the file: the text is a string.
- The lexer runs in a goroutine of its own; as it never looks at what the parser does, its tokens are a sequence here.
- A nil iterator given to dupe or fanout, which only a table left by a dry run can hold.
- Cancellable, contexts and timeouts, which depend on timing; safety and the ends of runs are proved, fairness is not.
- Filter, Transform, Reassign and Tag, which pass entries on one by one.
- Meaning.StepMeans: what a source gives, in which order merge and dupe hand entries on and which output of a fanout gets which are parameters; the combinators' own theorems say which are possible. Cut, tag and join are functions of the entries here, and a concatenation does not go on behind an error.
- Refusals.ScriptRefused: the errors for tokens that the grammar does not derive, and for literals without a value, are those of the functions that the parser is proved equal to.
- The plugins (files, standard streams, SQLite), the registry and its documentation, the command line.
