# Tocin: a verified model of the compiler's hard core

This project models parts of the Tocin compiler and runtime in Dafny and proves what they are for.

- **Blocking concurrency.** `Channel`, `ThreadPool` and `AsyncScheduler` are transition systems over any number of
  threads. A region under a mutex is one step; wait sets, notifications in flight, the choice of `notify_one` and
  spurious wake-ups are explicit. Statements about all legal event lists are statements about all schedules. The classes
  beside them perform the steps on mutable fields and are proved to be those steps.
- **Parser.** Modules `Grammar` and `Statements` are the grammar, panic-mode recovery included, as functions of the
  token list and the cursor; class `Parsing.Parser` has one method per rule and is proved to compute these functions,
  trees, exceptions and reports. The precedence-climbing parser is compared with the ladder. Printing is compared with
  parsing in both directions: expressions are parsed without a report exactly where they are printed, and, select
  apart, the programs that are parsed without a report are exactly the ones that can be printed and read back.
- **Lexer.** Module `Lexemes` is the lexer as functions of the text; class `Lexing.Lexer` is proved to compute them.
  Indentation balances for every text, and what the lexer makes of printed tokens is computed from the white space
  between them alone. `TextRoundTrip` joins lexer and parser: the text of a program is read back to its trees.
- **Code generation.** The expression visitors over 64-bit integers and booleans, with an interpreter for the emitted
  block and a meaning for the expressions.
- **Dependency cycles, string builtins, the push and steal half of the work-stealing queue, name mangling.**

`dafny verify dfyconfig.toml` checks everything.

## Where the code differs from what it says

- `ThreadPool::stop` stores its flag without the mutex, so it need not return: `StopCanMissAWorker` gives the schedule,
  and `MissedIffParking` says exactly which worker can be missed.
- `AsyncScheduler::submit` never tests the stop flag. When all workers have exited, a task has been run if and only if
  some worker had not yet exited when it was queued (`RunIffSomeAlive`).
- `AsyncScheduler::waitForAll` does not wait for all tasks to complete. What it waits for is an empty queue, and then
  the tasks are complete exactly if none is running (`CompleteIffIdle`, `WaitForAllCanReturnEarly`). It need not return
  either: nobody tells a sleeping caller when the queue empties, and then some caller still returns without a submit, a
  stop or a spurious wake-up exactly if one was woken already or a notification is pending (`CallerReturnsIffOnTheWay`,
  `WaitForAllCanMissTheEnd`). And as it sleeps on the workers' condition variable, it can take the notification that was
  meant for a worker; until that happens no task is forgotten (`ForgottenIffAbsorbed`).
- The constructors of `LambdaExpr` and `UnionType` test the value they have just moved from and always throw. They are
  parsed and throw here, too.
- `getOperatorPrecedence` names shift token types that the enumeration does not have; they are taken to be its
  LEFT_SHIFT and RIGHT_SHIFT.
- The `\u` branch of `scanString` looks for the brace while the cursor is still on the u, so it is always an error
  (`UnicodeIsInvalid`); `\x` swallows one character after its digits (`HexSwallows`); the first character of a template
  literal is skipped; a lexeme that starts at the last byte of the source is dropped unless it is a word or a number
  (`LastByte`). All of this is modelled as the code does it.
- Indentation is seen less often than lines begin: `skipWhitespace` crosses a line break together with the indentation
  behind it and only then notes the start of a line. A gap between tokens is measured if and only if no brace is open
  and a line start is noted, at the start of the text or by a line break in an earlier gap that was not measured itself,
  and no gap has been measured since (`MeasuredExactly`). `IndentationIsLost` is a text whose indentation disappears,
  `IndentationIsKept` one in which it is seen, and `IndentationBehindBraces` one in which it is seen behind a line of
  two tokens that closes a brace. `TextIsRead` says for every text what comes out.
- A case of match ends with a brace that it does not open, and select drops the value of a case
  (src/parser/parser.cpp:254-282 and 898-963).
- With an empty delimiter or pattern the loops of split and replace never end (`EmptyPatternNeverEnds`), so the methods
  demand a non-empty one.
- Mangled names that start with a digit are ambiguous, and only these (`DistinctIffReadable`).

## Model

| member | source | states |
|---|---|---|
| `Channels.StepKeepsInv` | src/runtime/concurrency.h:47-94 | Every region of send, receive and close, every resumption after a wait and every spurious wake-up keeps the invariant: nobody is in two places, the bound holds, and while a receiver (sender) sleeps the woken receivers (senders) cover the buffered items (free slots). |
| `Channels.NoLostWakeup` | src/runtime/concurrency.h:47-94 | In every state reachable by any schedule of any threads: receivers asleep on an open channel means woken receivers >= buffered items, senders asleep means woken senders + buffered items >= capacity, and nobody sleeps on a closed channel. |
| `Channels.NeverAllAsleep` | src/runtime/concurrency.h:47-94 | When no wake-up is under way, sleeping receivers mean an empty buffer, sleeping senders a full one, and so the two never sleep at once. |
| `Channels.BoundedFifo` | src/runtime/concurrency.h:47-87 | In every run the accepted values, in order, are the received values followed by the buffer, and a bounded buffer never exceeds its capacity; capacity 0 is unbounded. |
| `Channels.ClosedAcceptsNothing` | src/runtime/concurrency.h:50-64 | No send is accepted after close, and a closed channel stays closed. |
| `Channels.NothingMeansDrained` | src/runtime/concurrency.h:71-84 | A receive returns nothing if and only if the channel is closed and every accepted value has been received. |
| `Channels.Channel.Send` | src/runtime/concurrency.h:47-66 | The first region of send is the Send step of the transition system, with the step's result. |
| `Channels.Channel.ResumeSend` | src/runtime/concurrency.h:55-66 | The region of send after a wake-up is the ResumeSend step. |
| `Channels.Channel.Receive` | src/runtime/concurrency.h:71-84 | The first region of receive is the Receive step. |
| `Channels.Channel.ResumeReceive` | src/runtime/concurrency.h:74-84 | The region of receive after a wake-up is the ResumeReceive step. |
| `Channels.Channel.Close` | src/runtime/concurrency.h:89-94 | close is the Close step: everybody who sleeps is woken. |
| `ThreadPools.NothingLostNothingRepeated` | src/runtime/concurrency.h:317-362 | Over all interleavings of submits, workers and the unlocked flag, an accepted task is in exactly one of queued, running and done, once; any other task is in none. |
| `ThreadPools.NoTaskForgotten` | src/runtime/concurrency.h:322-358 | In every run: while a worker sleeps, the workers on their way to the queue and the pending notifications cover the queued tasks; with none of either a sleeping worker means an empty queue. |
| `ThreadPools.ExitIsFinal` | src/runtime/concurrency.h:325-327 | Once any worker has exited, the queue is empty and no later step of any thread queues a task. |
| `ThreadPools.AllExitedAllDone` | src/runtime/concurrency.h:317-388 | With at least one worker, when all workers have exited every accepted task has run exactly once and nothing else has. |
| `ThreadPools.StopCanMissAWorker` | src/runtime/concurrency.h:380-388 | A schedule in which the only worker goes to sleep after stop has notified: the flag is stored outside the mutex. |
| `ThreadPools.StopMissesAtMostTheParkingWorker` | src/runtime/concurrency.h:324-382 | After the notification of stop, whoever sleeps in any continuation is the one worker that was between its predicate and its sleep. |
| `ThreadPools.MissedIffParking` | src/runtime/concurrency.h:324-382 | Some continuation after the notification of stop has worker i asleep if and only if i was in that gap when stop notified. |
| `ThreadPools.ThreadPool.EnterSubmit` | src/runtime/concurrency.h:351-355 | submit up to the test of the flag: throws exactly when the flag is set, else keeps the mutex. |
| `ThreadPools.ThreadPool.Push` | src/runtime/concurrency.h:356-357 | The rest of submit's region. |
| `ThreadPools.ThreadPool.StoreStop` | src/runtime/concurrency.h:381 | The store of the flag, in any state, also while the mutex is held. |
| `ThreadPools.ThreadPool.Enter` | src/runtime/concurrency.h:322-330 | A worker's region: take the oldest task, exit, or find the predicate false. |
| `ThreadPools.ThreadPool.NotifyOne` | src/runtime/concurrency.h:358 | notify_one wakes some sleeper if there is one. |
| `ThreadPools.ThreadPool.NotifyAll` | src/runtime/concurrency.h:382 | notify_all wakes every sleeper. |
| `AsyncSchedulers.NoTaskForgotten` | src/runtime/async_system.h:96-172 | In every run: while a worker sleeps, woken workers, pending notifications and those that went to callers of waitForAll cover the queued tasks; so as long as none did, no task is queued with a worker asleep and no wake-up under way. |
| `AsyncSchedulers.ForgottenIffAbsorbed` | src/runtime/async_system.h:96-172 | In a run in which no caller of waitForAll has taken a notification yet, a step leaves a task forgotten if and only if such a caller takes the only pending one while a worker sleeps, none is on its way and the queue is not empty. |
| `AsyncSchedulers.WaitForAllCanForget` | src/runtime/async_system.h:147-150 | A schedule that does: a worker and a caller of waitForAll sleep on, the task stays queued. |
| `AsyncSchedulers.CompleteIffIdle` | src/runtime/async_system.h:144-179 | In every run all accepted tasks are complete if and only if the queue is empty and no worker is running one; waitForAll asks for the first half only. |
| `AsyncSchedulers.WaitForAllCanReturnEarly` | src/runtime/async_system.h:144-150 | A schedule in which waitForAll returns while the only accepted task is still running. |
| `AsyncSchedulers.CallerReturnsIffOnTheWay` | src/runtime/async_system.h:147-190 | Exactly when a caller of waitForAll still returns once the queue is empty, without a submit, a stop or a spurious wake-up: some caller was woken already, or a notification is pending. |
| `AsyncSchedulers.CallerWakesIffNotified` | src/runtime/async_system.h:147-190 | Exactly when a sleeping caller can wake at all without those: a notification is pending. |
| `AsyncSchedulers.WaitForAllCanMissTheEnd` | src/runtime/async_system.h:147-150 | A schedule after which nothing is queued, running or pending and waitForAll still sleeps. |
| `AsyncSchedulers.CallerSleepsOn` | src/runtime/async_system.h:147-172 | With no notification pending a caller of waitForAll sleeps through every continuation without a submit, a stop or a spurious wake-up. |
| `AsyncSchedulers.NobodySleepsAfterStop` | src/runtime/async_system.h:185-190 | After the notification of stop no worker sleeps in any continuation. |
| `AsyncSchedulers.OnePlace` | src/runtime/async_system.h:96-179 | In every run each accepted task is in exactly one of queued, running and done, once. |
| `AsyncSchedulers.ShutdownComplete` | src/runtime/async_system.h:161-196 | With at least one worker, when all have exited the flag is set and every task queued before it was set has run exactly once. |
| `AsyncSchedulers.RunIffSomeAlive` | src/runtime/async_system.h:96-196 | Exactly which accepted tasks are run: in every run that ends with all workers exited, a task has left the queue, and has run once, if and only if some worker had not yet exited when it was queued, before or after the flag was set. |
| `AsyncSchedulers.LateTaskCanBeStranded` | src/runtime/async_system.h:96-100 | The smallest schedule of the other kind: submit does not test the flag, and a task submitted after the only worker exited stays in the queue. |
| `AsyncSchedulers.AsyncScheduler.Submit` | src/runtime/async_system.h:96-99 | submit's region is the Push step; its notify_one is still to come. |
| `AsyncSchedulers.AsyncScheduler.Enter` | src/runtime/async_system.h:166-176 | A worker's region: sleep, exit or take the oldest task. |
| `AsyncSchedulers.AsyncScheduler.SetStop` | src/runtime/async_system.h:186-189 | The flag is set under the mutex. |
| `AsyncSchedulers.AsyncScheduler.NotifyOne` | src/runtime/async_system.h:100 | notify_one wakes some sleeping worker or some sleeping caller of waitForAll, if there is one. |
| `AsyncSchedulers.AsyncScheduler.WaitForAll` | src/runtime/async_system.h:147-150 | The region of waitForAll: it is done exactly when the queue is empty, whatever is still running, and sleeps otherwise. |
| `WorkStealing.StealsAreAPrefix` | src/runtime/lightweight_scheduler.h:234-328 | With one pusher and any number of thieves holding stale reads, the successful steals hand out exactly the first `top` pushed items in push order, each once, and what is left is the items from `top` on. |
| `WorkStealing.OneWinnerPerTop` | src/runtime/lightweight_scheduler.h:321-325 | Of two thieves with the same `top`, the second one's compare-exchange fails and it gets nothing. |
| `WorkStealing.NothingIsJustified` | src/runtime/lightweight_scheduler.h:299-328 | In every run a steal that returns nothing was right to: giving up at the second load means that no published item is left, and failing under the lock means that another thief has taken the item meanwhile. |
| `WorkStealing.WorkStealingQueue.Take` | src/runtime/lightweight_scheduler.h:306-328 | The locked region of steal, with the item or nothing. |
| `WorkStealing.WorkStealingQueue.LoadBottom` | src/runtime/lightweight_scheduler.h:299-304 | The second unlocked load of steal, after which it gives up or goes for the lock. |
| `WorkStealing.SizeIsALowerBound` | src/runtime/lightweight_scheduler.h:353-357 | In every run, whatever happens between the two unlocked loads of size, its result is at most the number of available items at the first load and at the second; it is exact at the first if and only if nothing was stolen meanwhile (or nothing was there), and at the second if and only if nothing was published (or nothing is there). |
| `WorkStealing.WorkStealingQueue.LoadSize` | src/runtime/lightweight_scheduler.h:354 | The first load of size. |
| `WorkStealing.WorkStealingQueue.Size` | src/runtime/lightweight_scheduler.h:355-356 | The second load, later, and the difference of the two. |
| `CycleSearch.Search.IsCyclicUtil` | interpreter/src/Interpreter.cpp:240-257 | The recursive search over the two mutated maps: true only if the graph has a cycle, else the node is finished, no finished node starts a cycle and the stack map is as before; the recursion ends because the unvisited nodes get fewer. |
| `CycleSearch.StaticAnalyzer.DetectCircularDependencies` | interpreter/src/Interpreter.cpp:209-219 | True if and only if some node has a non-empty path to itself, self-loops and duplicate edges included. |
| `CycleSearch.StaticAnalyzer.AddDependency` | interpreter/src/Interpreter.cpp:204-207 | Appends an edge, duplicates kept. |
| `CycleSearch.AddFinished` | interpreter/src/Interpreter.cpp:240-254 | A node all of whose successors are finished lies on no cycle. |
| `Strings.JoinSplit` | interpreter/src/Builtins.cpp:127-157 | join inverts split, for every string and every non-empty delimiter. |
| `Strings.SplitJoin` | interpreter/src/Builtins.cpp:127-157 | split inverts join on a non-empty list of parts if and only if the first match of the delimiter in each non-final part followed by the delimiter is that delimiter and the last part has none. |
| `Strings.SplitIsTheCleanList` | interpreter/src/Builtins.cpp:127-143 | split returns the one list with those properties whose join is the string. |
| `Strings.StrSplitErasing` | interpreter/src/Builtins.cpp:127-143 | The loop that erases the front of the subject computes Split. |
| `Strings.StrSplitIndexing` | src/compiler/stdlib.cpp:214-230 | The loop over two indices computes the same Split. |
| `Strings.StrJoin` | interpreter/src/Builtins.cpp:145-157 | The loop computes Join. |
| `Strings.StrReplace` | interpreter/src/Builtins.cpp:187-201 | The in-place loop computes join(split(text, pattern), replacement), also when the replacement contains the pattern; |str| - pos decreases. The loop at src/compiler/stdlib.cpp:174-180 is the same. |
| `Strings.EmptyPatternNeverEnds` | interpreter/src/Builtins.cpp:127-201 | With an empty delimiter or pattern the search succeeds wherever it starts and the loops come no nearer to their end: the erased subject, the index and the distance to the end stay the same. |
| `Mangling.MangleFunctionName` | src/ffi/ffi_cpp.cpp:987-1010 | The appending loop computes Mangle. |
| `Mangling.DemangleInverts` | src/ffi/ffi_cpp.cpp:987-1010 | A decoder recovers name and parameter types unless one of them starts with a digit; decimal length prefixes are uniquely readable, the empty name included. |
| `Mangling.MangleInjective` | src/ffi/ffi_cpp.cpp:987-1010 | So mangling is injective on names and types that do not start with a digit. |
| `Mangling.DigitNameCollides` | src/ffi/ffi_cpp.cpp:987-1010 | Every function name that starts with a digit has a collision: some signature of it gets the symbol of another name that does not. |
| `Mangling.DigitTypeCollides` | src/ffi/ffi_cpp.cpp:987-1010 | Every parameter type that starts with a digit has one, too, in every function. |
| `Mangling.DistinctIffReadable` | src/ffi/ffi_cpp.cpp:987-1010 | A function name shares no symbol with any name that does not start with a digit if and only if it does not start with a digit itself. |
| `Mangling.DistinctTypeIffReadable` | src/ffi/ffi_cpp.cpp:987-1010 | The same equivalence for parameter types. |
| `Mangling.DigitNamesCollide` | src/ffi/ffi_cpp.cpp:991-992 | The smallest collision. |
| `Parsing.Parser.Consume` | src/parser/parser.cpp:674-681 | consume returns the expected token and advances, or records an error and stays. |
| `Parsing.Parser.Assignment` | src/parser/parser.cpp:289-314 | Computes Expression: right-associative, targets are variables and gets, anything else is reported and kept. |
| `Parsing.Parser.OrExpr` | src/parser/parser.cpp:316-326 | Computes level 0 of the ladder: tree, end position, reports and exception. |
| `Parsing.Parser.AndExpr` | src/parser/parser.cpp:328-338 | Computes level 1 of the ladder: tree, end position, reports and exception. |
| `Parsing.Parser.Equality` | src/parser/parser.cpp:340-350 | Computes level 2 of the ladder: tree, end position, reports and exception. |
| `Parsing.Parser.Comparison` | src/parser/parser.cpp:352-363 | Computes level 3 of the ladder: tree, end position, reports and exception. |
| `Parsing.Parser.Term` | src/parser/parser.cpp:365-375 | Computes level 4 of the ladder: tree, end position, reports and exception. |
| `Parsing.Parser.Factor` | src/parser/parser.cpp:377-388 | Computes level 5 of the ladder: tree, end position, reports and exception. |
| `Parsing.Parser.ParseUnary` | src/parser/parser.cpp:390-416 | Computes UnaryExpr. |
| `Parsing.Parser.NewExpr` | src/parser/parser.cpp:861-875 | Computes NewRest. |
| `Parsing.Parser.ParseCall` | src/parser/parser.cpp:418-452 | Computes CallExpr: the loop over calls, gets and channel sends. |
| `Parsing.Parser.ParseSuffix` | src/parser/parser.cpp:423-447 | Computes Suffix: one call, get or channel send. |
| `Parsing.Parser.ParsePrimary` | src/parser/parser.cpp:454-541 | Computes Primary, exceptions included. |
| `Parsing.Parser.ParseLambda` | src/parser/parser.cpp:521-537 | A lambda parses its parts and then always throws (src/ast/ast.h:464-469). |
| `Parsing.Parser.ParseType` | src/parser/parser.cpp:543-581 | Computes ParseType, the type tree; a union parses its parts and then always throws (src/ast/ast.h:188-194). |
| `Parsing.Parser.ParseParameters` | src/parser/parser.cpp:583-604 | Computes Parameters, the list of names and types. |
| `Parsing.Parser.ParseBinaryExpression` | src/parser/parser.cpp:795-823 | Computes Climb, the precedence-climbing parser. |
| `Parsing.Parser.Parse` | src/parser/parser.cpp:13-46 | On every token list that ends in its end marker parse ends there, having computed Program: the declarations that did not fail, as one statement or as a block with the first token. |
| `Parsing.Parser.ParseDeclaration` | src/parser/parser.cpp:48-79 | Computes Declaration: the statement, or after an exception the null pointer, the recovery and its report; off the end marker it strictly advances. |
| `Statements.MissingIsReported` | src/parser/parser.cpp:48-79 | A declaration is missing exactly when it threw, and then the last report stands where the parser goes on: at the end, behind a `;` or at a token that starts a statement. |
| `Parsing.Parser.Synchronize` | src/parser/parser.cpp:606-633 | Computes Synchronized: off the end marker it advances, and it stops at the first recovery point, not later. |
| `Parsing.Parser.VarDeclaration` | src/parser/parser.cpp:81-97 | Computes VarDeclaration: type and initializer are optional, the keyword before the cursor decides between let and const. |
| `Parsing.Parser.FunctionDeclaration` | src/parser/parser.cpp:99-124 | Computes FunctionDeclaration: a missing def after async is blamed on the async, `->` and `:` both introduce the type, the default is None. |
| `Parsing.Parser.ClassDeclaration` | src/parser/parser.cpp:126-149 | Computes ClassDeclaration: fields and methods are collected apart, other tokens are reported and skipped; the loop ends although a failed consume does not advance. |
| `Parsing.Parser.ParseStatement` | src/parser/parser.cpp:151-170 | Computes Statement, the dispatch on the first token. |
| `Parsing.Parser.ExpressionStmt` | src/parser/parser.cpp:172-177 | Computes ExpressionRest. |
| `Parsing.Parser.IfStmt` | src/parser/parser.cpp:179-199 | Computes IfRest: any number of elif branches, then an optional else. |
| `Parsing.Parser.WhileStmt` | src/parser/parser.cpp:201-207 | Computes WhileRest. |
| `Parsing.Parser.ForStmt` | src/parser/parser.cpp:209-222 | Computes ForRest. |
| `Parsing.Parser.BlockStmt` | src/parser/parser.cpp:224-233 | Computes Block: failed declarations stay in the list as null pointers, nothing is thrown, the token is the one before the cursor. |
| `Parsing.Parser.ReturnStmt` | src/parser/parser.cpp:235-245 | Computes ReturnRest. |
| `Parsing.Parser.ImportStmt` | src/parser/parser.cpp:247-252 | Computes ImportRest. |
| `Parsing.Parser.MatchStmt` | src/parser/parser.cpp:254-282 | Computes MatchRest: each case ends with a brace that it does not open, the last default counts. |
| `Parsing.Parser.GoStmt` | src/parser/parser.cpp:884-896 | Computes GoRest. |
| `Parsing.Parser.SelectStmt` | src/parser/parser.cpp:898-963 | Computes SelectRest: the channel of a case stands before or behind the arrow, the value is dropped. |
| `Climbing.ClimbingEqualsLadder` | src/parser/parser.cpp:316-388 | On every token list, climbing at 2, 3, 4, 5, 10 and 11 does what orExpr, andExpr, equality, comparison, term and factor do (tree, end, reports, exception) if and only if the ladder throws or ends at a token that binds less; SameOnLadderTokens is the form of the condition that can be checked on the tokens. |
| `Climbing.SameOnLadderTokens` | src/parser/parser.cpp:740-823 | So on token lists without bitwise operators, shifts and powers the two parsers are the same. |
| `Climbing.ClimbInTwo` | src/parser/parser.cpp:795-823 | Climbing at a low precedence is climbing at a higher one and going on from its result. |
| `RoundTrip.ExpressionReturns` | src/parser/parser.cpp:284-541 | Wherever a well-formed tree of assignments, field sets, ladder operators, `!`, `-`, await, calls, gets, lists, dictionaries, groupings and literals is printed and a token that cannot extend it follows, parsing returns the tree, stops there and reports nothing. |
| `RoundTrip.LevelReads` | src/parser/parser.cpp:316-388 | At a ladder level a printed operand brings the parser to the loop of that level, whatever operator of the level follows: left associativity. |
| `RoundTrip.PrimaryReturns` | src/parser/parser.cpp:454-541 | The round trip of the bracketed constructs and the atoms. |
| `Exactness.ExpressionSound` | src/parser/parser.cpp:284-541 | What is parsed without a report is a well-formed tree whose printed tokens are exactly the ones consumed, and the next token cannot extend it. |
| `Exactness.ExactlyPrinted` | src/parser/parser.cpp:284-541 | Over tokens with their usual spelling the parser returns e without a report and stops at q if and only if the printed form of the well-formed tree e stands there and the token at q cannot extend it. |
| `StatementRoundTrip.ReadStatement` | src/parser/parser.cpp:48-282 | Wherever a well-formed statement of any kind but select is printed and, after an if without else, no elif or else follows, parsing returns its tree, stops there and reports nothing. |
| `StatementRoundTrip.ReadType` | src/parser/parser.cpp:543-581 | The round trip of types. |
| `StatementRoundTrip.ReadItems` | src/parser/parser.cpp:224-233 | The loop of a block reads any number of printed statements. |
| `StatementRoundTrip.ProgramReturns` | src/parser/parser.cpp:13-46 | Parsing the printed tokens of any list of well-formed statements gives back the list, reports nothing and ends at the end marker. |
| `StatementExactness.ProgramSound` | src/parser/parser.cpp:13-282 | Over tokens with their usual spelling and without select, the statements of a program that is parsed without a report are well formed, at every depth. |
| `StatementExactness.ProgramIsNormal` | src/parser/parser.cpp:13-282 | So they can be printed, and parsing the printed tokens gives the same program: printing is a normal form of every accepted program. |
| `StatementExactness.ExactlyWellFormed` | src/parser/parser.cpp:13-282 | The programs that some usual token list is parsed to without a report are exactly the well-formed ones. |
| `Lexing.Lexer.Tokenize` | src/lexer/lexer.cpp:46-81 | tokenize computes Tokenize, the error limit and the closing dedents included. |
| `Lexing.Lexer.ScanToken` | src/lexer/lexer.cpp:608-672 | One call computes ScanToken on the whole state, and always moves forward. |
| `Lexing.Lexer.SkipWhitespace` | src/lexer/lexer.cpp:119-219 | Ends where SkipEnd ends and notices every newline it crosses. |
| `Lexing.Lexer.HandleIndentation` | src/lexer/lexer.cpp:221-342 | Computes Indented: mixed tabs, empty lines, comments, indents and dedents. |
| `Lexing.Lexer.ScanString` | src/lexer/lexer.cpp:344-479 | Computes StringFrom: escapes, hex escapes that swallow one more character, unterminated strings. |
| `Lexing.Lexer.ScanNumber` | src/lexer/lexer.cpp:481-585 | Computes NumberAt: prefixes, octal, fraction, exponent, suffix and their errors. |
| `Lexing.Lexer.ScanIdentifier` | src/lexer/lexer.cpp:587-606 | Computes WordAt. |
| `Lexing.Lexer.ScanPunctuation` | src/lexer/lexer.cpp:639-943 | Computes PunctuationAt. |
| `Lexing.Lexer.MatchOperator` | src/lexer/lexer.cpp:660-943 | Matching one character after another chooses the operator that OperatorAt names, and leaves the cursor behind it; nothing is matched if there is none. |
| `Lexemes.LongestMatch` | src/lexer/lexer.cpp:660-943 | The operator that is chosen is in the table, and no longer operator of the table is a prefix of what follows; nothing is chosen only where no operator begins. |
| `LexRoundTrip.SymbolsAreTheTable` | src/lexer/lexer.cpp:660-943 | The operators that can be printed are exactly those of the table. |
| `LexRoundTrip.LastByte` | src/lexer/lexer.cpp:639-655 | A lexeme that starts at the last byte of the source and is neither a word nor a number is dropped. |
| `LexRoundTrip.OperatorAtEnd` | src/lexer/lexer.cpp:639-943 | An operator that ends at the end of the source is scanned to its token if and only if it is longer than one byte. |
| `Lexing.Lexer.ScanTemplateLiteral` | src/lexer/lexer.cpp:946-1024 | Computes TemplateFrom: interpolations, escapes, errors. |
| `Layout.TokensBalance` | src/lexer/lexer.cpp:46-342 | For every source text and positive indent size every prefix has at least as many indents as dedents, the totals are equal, and the end marker comes once, last. |
| `Layout.IndentLevelIsDepth` | src/lexer/lexer.cpp:221-342 | Up to the end of the scan the difference is the lexer's indentLevel, through mixed tabs, comments, unbalanced braces and the error limit. |
| `Layout.TokenKeepsBalance` | src/lexer/lexer.cpp:608-943 | Every call of scanToken keeps that. |
| `LexRoundTrip.EscapeValue` | src/lexer/token.cpp:164-174 | The escaping loop computes Escaped. |
| `LexRoundTrip.EscapeRoundTrip` | src/lexer/lexer.cpp:344-479 | For every byte string, its escaped form and a double quote, read by scanString, yield one STRING token with that value, no error, and consume exactly that text. |
| `LexRoundTrip.UnicodeIsInvalid` | src/lexer/lexer.cpp:399-404 | The escape u is an error in every string, whatever follows it, and stands for the letter. |
| `LexRoundTrip.HexSwallows` | src/lexer/lexer.cpp:379-397 | The result of scanString does not depend on the character behind the digits of the escape x, be it a quote or a line break. |
| `LexRoundTrip.LexemeIsRead` | src/lexer/lexer.cpp:481-943 | A printable token followed by white space is scanned to itself, by maximal munch. |
| `LexRoundTrip.TokensReturn` | src/lexer/lexer.cpp:46-81 | Printing any list of identifiers, keywords, canonical decimal numbers, strings of any bytes and operators with any blanks after each and tokenizing gives back the list and the end marker, with no error. |
| `TextRoundTrip.TextReturns` | src/parser/parser.cpp:284-541 | Writing a tree as text with any white space between the tokens that is not read as indentation, lexing and parsing it gives back the tree, reports nothing and consumes everything. |
| `TextRoundTrip.TextIsUnambiguous` | src/parser/parser.cpp:284-541 | Trees with the same text are equal, however the text is spaced. |
| `TextRoundTrip.ProgramTextReturns` | src/parser/parser.cpp:13-46 | The same for whole programs: lexing and parsing the text of any list of well-formed statements gives back the list and reports nothing. |
| `TextRoundTrip.ProgramTextIsUnambiguous` | src/parser/parser.cpp:13-46 | Programs with the same text are equal. |
| `TextRoundTrip.OneLineWrites` | src/lexer/lexer.cpp:46-81 | A text on one line, whatever blanks it has, is such a text. |
| `Whitespace.TextIsRead` | src/lexer/lexer.cpp:46-342 | For any printable tokens and any white space between them, tabs and line breaks included, the tokens, the indents and dedents between them and the number of errors are those that Read computes from the gaps alone, up to the error limit. |
| `Whitespace.LayoutKeepsTokens` | src/lexer/lexer.cpp:46-342 | So tokenizing gives back the list up to indents and dedents unless a hundred lines mix tabs and spaces, and without tabs there is no error. |
| `Whitespace.LineStartInGap` | src/lexer/lexer.cpp:221-342 | Exactly what a gap emits at the start of a line: the indents and dedents that lead through the levels of its measured runs, with an error for each run that mixes tabs and spaces. |
| `Whitespace.SpacesAreMeasured` | src/lexer/lexer.cpp:221-342 | For spaces and line breaks that is one change of level, to the width of the last line divided by the indent size. |
| `Whitespace.IndentationIsSkipped` | src/lexer/lexer.cpp:119-141 | Inside of braces, or where no line start was noted, a gap emits nothing, however far the next line is indented; a line break in it is noted only for the gap behind the token. |
| `Whitespace.IndentationIsSeen` | src/lexer/lexer.cpp:608-637 | At a noted line start outside of braces the width of the last line of spaces becomes the level before the token. |
| `Whitespace.QuietTexts` | src/lexer/lexer.cpp:46-342 | A text is lexed to its tokens and the end marker alone, without errors, if and only if every gap that is measured leaves the level at 0. |
| `Whitespace.IndentationIsLost` | src/lexer/lexer.cpp:119-141 | Of three tokens, two on the first line and one on the second: whatever the indentation of the second line, no indent is emitted. |
| `Whitespace.IndentationIsKept` | src/lexer/lexer.cpp:221-342 | Of three tokens on lines of their own, the first two without braces that stay open: one indent for each full width of the third. |
| `Whitespace.IndentationBehindBraces` | src/lexer/lexer.cpp:119-141 | Of four tokens, an opening brace, one more and the closing brace on the second line, and the fourth on the third: its indentation is seen, one indent for each full width. |
| `Whitespace.MeasuredExactly` | src/lexer/lexer.cpp:119-141 | Exactly which gaps are measured, from the line breaks and braces alone: no brace is open, and since the start of the text, or since a line break in an earlier gap that was not measured itself, no gap has been measured. |
| `Codegen.IRGenerator.Visit` | src/codegen/ir_generator.cpp:2853-3153 | Visiting any expression leaves the code and lastValue that Gen says. |
| `Codegen.IRGenerator.VisitBinaryExpr` | src/codegen/ir_generator.cpp:2853-3134 | The left value survives the visit of the right operand although lastValue is shared. |
| `Codegen.IRGenerator.VisitUnaryExpr` | src/codegen/ir_generator.cpp:1143-1268 | Negation, not, complement, ++ and --. |
| `Codegen.IRGenerator.VisitVariableExpr` | src/codegen/ir_generator.cpp:3141-3153 | A load, or the i32 zero for an undeclared name. |
| `Codegen.IRGenerator.VisitLiteralExpr` | src/codegen/ir_generator.cpp:320-331 | Integer and boolean constants. |
| `Codegen.GenShape` | src/codegen/ir_generator.cpp:2853-3153 | For every expression, well typed or not, the list is only appended to and every operand is a constant or an earlier instruction. |
| `Codegen.GenTyped` | src/codegen/ir_generator.cpp:2853-3153 | A well-typed expression leaves a value of its type in lastValue. |
| `Codegen.GenMeans` | src/codegen/ir_generator.cpp:1143-1268 | If the expression has a meaning, running the emitted list yields it (and and or evaluated eagerly) and leaves the variables as the meaning says, whether or not the builder folds constants. |
| `Codegen.GenFails` | src/codegen/ir_generator.cpp:1143-1268 | If a well-typed expression has no meaning, running the emitted list gets stuck or leaves poison. |
| `Codegen.BinaryDefined` | src/codegen/ir_generator.cpp:2853-3134 | On operands of the right types a binary operator has a meaning if and only if it does not divide by zero, overflow the quotient or shift out of range; where it does, its instruction is undefined. |
| `Codegen.UnaryDefined` | src/codegen/ir_generator.cpp:1143-1268 | On an operand of the right type a unary operator always has a meaning. |
| `Codegen.ExpressionCompiled` | src/codegen/ir_generator.cpp:2853-3153 | For every well-typed expression in a block of its own: the block is well formed, leaves a value of the right type, and runs to a value that can be read if and only if the expression has a meaning; then value and variables are as the meaning says. |
| `Codegen.StepLeads` | src/codegen/ir_generator.cpp:1200-1252 | ++ and -- load, step, store and yield the new value. |
| `Codegen.LogicLeads` | src/codegen/ir_generator.cpp:3046-3070 | and and or on mixed operands convert each to a truth value first. |

## Left out

- Memory order: atomics are sequentially consistent here, and every load and store outside a mutex is a step of its own.
- Channels.Channel: sending and receiving threads run one region at a time; blocking is the return of Asleep and a later Resume call.
- ThreadPools.AllExitedAllDone: says nothing about whether stop returns, because it need not; the counter of active threads is not part of this model.
- AsyncScheduler::delay, Promise settlement, Select, Scheduler and its waits: timers, detached threads or placeholders.
- WorkStealingQueue::pop, pushPriority and stealPriority: the results are about queues that are only pushed to and stolen from.
- CycleSearch.Search.IsCyclicUtil: the lookup that inserts an empty list for an unknown node is modelled as a lookup only, and the keys iterated are the initial ones.
- Strings: the builtins' checks of argument count and type, and the conversion of array elements to text before join.
- StatementRoundTrip.ReadStatement: select has no printed form, because its tree does not keep the values of its cases, and StatementExactness leaves it out, too; a class is printed with its fields before its methods, and a match with its default last.
- RoundTrip.ExpressionReturns: new, delete, channel sends and receives have no printed form; lambdas and unions always throw.
- Lexing.Lexer.Tokenize: line and column numbers, file names and the text of error messages; the handler for runtime errors is never reached, because nothing in the scan throws one.
- Lexing.Lexer.ScanNumber: bytes above 127 are no letters or digits, as in the C locale.
- Whitespace.LayoutKeepsTokens: says nothing about a text with a hundred lines that mix tabs and spaces, where the lexer gives up; comments between the tokens are lexed but not printed.
- LexRoundTrip.TokensReturn: numbers with exponents, prefixes or suffixes, single-quoted strings, comments and template literals are lexed but not printed.
- Codegen.IRGenerator.Visit: the other visitors (calls, lists, dictionaries, members, assignment) are a null value here.
- Codegen.IRGenerator.VisitBinaryExpr: float, string and pointer operands are not modelled.
- Codegen.IRGenerator.VisitUnaryExpr: float operands are not modelled, and global variables are not looked up for ++ and --.
- Codegen.IRGenerator.VisitLiteralExpr: float, string and nil literals are a null value here; an exception of stoll is a missing value.
- Codegen.GenMeans: integers of 64 bits and booleans only, as in the visitors above.
- Codegen.Create: IRBuilder folds an instruction exactly when all its operands are constants, or never, as the switch says; its other simplifications are not modelled.
- Statement-level code generation, assignment, classes, coroutines: no meaning of statements is modelled.
- Optimizer, garbage collectors, JIT, FFI bridges, REPL, debugger, package manager, WebAssembly: stubs or foreign calls.
