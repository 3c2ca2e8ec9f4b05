# remote-shell core, modelled in Dafny

This project models the sequential core of the remote shell in the C repository
IzahSohail/remote-shell. There are three parts.

- **Tokenizer** (`src/parser.c`). `parseInput` splits a command line at `' '` and
  `'\n'`, strips one narrow kind of double quotes, and fills the caller's argument
  array. It is modelled as a `method` writing an `array<Option<string>>`, proved
  against the functions `Split`/`Unquote`/`Tokens` (module `Parser`, `parser.dfy`).
- **Execution engine** (`src/executor.c`). The redirection handlers scan the
  argument vector, keep the arguments, and pick a target for each standard
  stream. The pipeline handlers split the vector at `|`, check for empty
  stages, and wire each stage to its neighbours' pipe ends. The effects of
  `fork`, `dup2`, `open`, `pipe`, `execvp` and `wait` are not run. A handler
  returns what each forked process ends up doing instead: `Exec` with its argument vector,
  its three streams and the files it opened, or `Abort` with the message it writes and the
  stream that message goes to (the stderr in force at that moment).
  A pipeline handler returns the children in fork order,
  the parent's message, how many children it waits for, and the pipe descriptors
  it still holds (modules `Redirect` in `redirect.dfy` and `Pipes` in `pipes.dfy`;
  shared values in module `Common`, `common.dfy`).
- **Scheduler** (`src/scheduler.c`). The task queue is a class `TaskQueue` whose `tasks` sequence stands
  for the linked list. Its other fields are the id counter and the log of
  everything `send` wrote. The methods mirror `add_task`, `add_task_with_socket`,
  `remove_task` and `remove_tasks_by_client`; `Step` is one pass of `scheduler_loop`.
  Those pieces are:
  - the selection (shell tasks first, then the shortest remaining time, then
    the earliest in the queue);
  - the quantum (3, then 7);
  - the demo iterations;
  - the commit with its `__TASK_DONE__` sentinel.

  `execute_shell_command` is modelled up to the choice of handler, which is
  made from the parsed tokens (module `Scheduler`, `scheduler.dfy`).

The model follows the code where the code and the intended shell meaning differ.
`2>&1` makes stderr a copy of the stdout that the process *entered* with: the `dup2` runs
while the token is scanned, before the `>` file is bound. A `2>` file wins over `2>&1`
in either order. `handlePipeRedirect` forks the stages before an empty one
before it notices the empty stage, and it waits for them only when the empty stage is a trailing `|`.

## Model

| member | source | states |
|---|---|---|
| Common.Truncated | src/executor.c:266 | the files created or truncated by a sequence of opens: every create+truncate open, and nothing else (the partner lemmas below state what it is for the handlers) |
| Common.TruncatedAppend | src/executor.c:247-294 | opening one batch of files after another truncates exactly the files of both batches |
| Parser.RunLength | src/parser.c:9 | the length of the leading run of non-separators: no separator inside it, and a separator right after it when it ends before the input |
| Parser.Split | src/parser.c:9-23 | the tokens the strtok loop returns: the maximal runs of characters other than space and newline, in order; SplitPiecesAreWords, SplitKeepsEveryOtherCharacter, SplitEmptyIffBlank and SplitJoinSpace state what they are |
| Parser.IndexOf | src/parser.c:14 | strchr: the position of the first occurrence, with no occurrence before it |
| Parser.UnquoteKeepsWords | src/parser.c:13-18 | stripping the quotes of a token without separators leaves a string without separators |
| Parser.Unquote | src/parser.c:13-18 | a token with a leading `"` and a later `"` becomes the text strictly between the opening quote and the first later one, which holds no quote; any other token is unchanged |
| Parser.Tokens | src/parser.c:7-26 | one argument per strtok token; no argument holds a space or a newline, even after the quote rule; there are none exactly when the command line is empty or only spaces and newlines |
| Parser.SplitPiecesAreWords | src/parser.c:9-23 | every token is non-empty and holds no space or newline |
| Parser.SkipSeparators | src/parser.c:23 | strtok's skip over delimiters stops at a non-separator or at the end, and does not change the tokens still to come |
| Parser.ScanToken | src/parser.c:23 | strtok's scan stops exactly at the end of the run of non-separators |
| Parser.NextToken | src/parser.c:9-23 | one strtok call: either no token is left, or the next token is input[start..end] and the remaining tokens follow `end` |
| Parser.StoreTokens | src/parser.c:11-24 | the loop stores, in order, each token after the quote rule into the next cell; argCount is the number of tokens, and later cells are untouched |
| Parser.ParseInput | src/parser.c:7-26 | argCount is the number of tokens, command[0..argCount) holds them in order, command[argCount] is NULL, and the cells after it are unchanged |
| Parser.SplitKeepsEveryOtherCharacter | src/parser.c:9 | the tokens, concatenated, are the input with every space and newline removed |
| Parser.SplitEmptyIffBlank | src/parser.c:8-25 | there are no tokens (argCount 0, command[0] NULL) exactly when the input is empty or only spaces and newlines |
| Parser.SplitJoinSpace | src/parser.c:9-23 | words without separators, joined by single spaces, tokenize back to the same words |
| Parser.TabIsNotSeparator | src/parser.c:9 | `a<TAB>b` is a single token |
| Parser.QuotedPhraseIsSplit | src/parser.c:9-18 | `"a b"` yields the two arguments `"a` and `b"`: splitting comes before the quote rule |
| Parser.QuotedTokenKeepsInterior | src/parser.c:13-18 | a quoted word followed by more characters keeps just the text between the quotes |
| Parser.InnerQuotesAreKept | src/parser.c:13 | a token such as `ab"c"` is kept unchanged: only a leading quote is examined |
| Redirect.ScanList | src/executor.c:247-294 | a scan aborts only at an operator that takes a filename in the mode being scanned |
| Redirect.TakesFile | src/executor.c:31-49 | the operators that take a file name in each scan: `>` and `2>` for handleRedirect, `<` alone for inputRedirect (src/executor.c:78-83), all three for handleCombinedRedirect (src/executor.c:248-279); ScanRendered and TruncatesOutputTargets state what a scan does with them |
| Redirect.IsMerge | src/executor.c:287 | `2>&1` counts as an operator only in the combined scan (here and at src/executor.c:439); the other two scans keep it as an argument. ScanRendered and MergeCopiesEntryStdout state its effect |
| Redirect.OpenFor | src/executor.c:248-279 | `<` opens its file read-only; `>` and `2>` open theirs for writing, created and truncated. TruncatesOutputTargets states that exactly the `>`/`2>` targets are truncated |
| Redirect.Record | src/executor.c:248-285 | an operator and its file: the file is opened, and stands as the last target of the operator's stream (`<` stdin, `>` stdout, `2>` stderr), the other streams unchanged; ScanRendered states that a scan is the fold of Record over the items |
| Redirect.MissingFileMessage | src/executor.c:33-276 | the message each mode writes for an operator that has no filename after it, as the six fprintf calls spell it |
| Redirect.LiveStderr | src/executor.c:30-290 | where a scan's error messages go: the last `2>` file so far under handleRedirect, which dup2s it at once; the entry stdout under the combined scan after `2>&1`; the entry stderr otherwise |
| Redirect.Streams | src/executor.c:287-309 | the three streams execvp runs with: each file target replaces its entry stream, `2>&1` copies the entry stdout, a `2>` file wins over it; PlanOfRendered states them for any command line |
| Redirect.Plan | src/executor.c:24-316 | what the forked child of a scan reaches; the three handlers are proved equal to it, and PlanOfRendered, PlanOfMissingFile and TruncatesOutputTargets state what it is |
| Redirect.KeptGrows | src/executor.c:292 | the kept arguments only grow during a scan |
| Redirect.HandleRedirect | src/executor.c:30-61 | the loop over `>` and `2>` yields exactly what the scan specification gives for the output/error mode |
| Redirect.InputRedirect | src/executor.c:77-95 | the loop over `<` yields exactly what the scan specification gives for the input mode |
| Redirect.HandleCombinedRedirect | src/executor.c:247-311 | the loop over `<`, `>`, `2>` and `2>&1`, then the three bindings, yields exactly what the scan specification gives for the combined mode; it also returns the stderr in force when the scan ends |
| Redirect.ScanItem | src/executor.c:247-294 | scanning the tokens of one argument or redirection is one step of the scan |
| Redirect.ScanRendered | src/executor.c:247-294 | scanning a command line of arguments and redirections keeps the arguments in order, opens every named file in order, and records the last target per stream and whether `2>&1` occurred |
| Redirect.PlanOfRendered | src/executor.c:247-311 | for every mode and every command line of plain arguments and of redirections the mode recognises: the process runs the arguments in order; each stream goes to its last named file, otherwise to its entry stream; `2>&1` copies the entry stdout unless a `2>` is named anywhere; every named file is opened, `>`/`2>` with truncation |
| Redirect.PlanOfMissingFile | src/executor.c:247-286 | an operator with no filename after it aborts with the mode's message, after opening the files named before it; the message goes to the last `2>` file named before it under handleRedirect, to the entry stdout under the combined scan once `2>&1` was seen, and otherwise to the entry stderr |
| Redirect.MissingFileReportedToErrorFile | src/executor.c:30-54 | `ls 2> e.txt >`: e.txt is truncated, and the complaint about `>` is written into e.txt |
| Redirect.TruncatedOpens | src/executor.c:247-294 | a file is created or truncated by the opens of a command line exactly when it is named after `>` or `2>` |
| Redirect.TruncatesOutputTargets | src/executor.c:247-311 | a child that reaches execvp has created or truncated exactly the files named after `>` or `2>`; a file named after `<` is only read |
| Redirect.MergeCopiesEntryStdout | src/executor.c:287-305 | `ls nonexistent > out.txt 2>&1`: stdout goes to out.txt, stderr to the stdout the process entered with |
| Pipes.FirstPipe | src/executor.c:112-115 | the index of the first `|`, with no `|` before it, or the length when there is none |
| Pipes.Stages | src/executor.c:189-194 | the stages the loop walks: the pieces of the vector between `|` tokens, one more than there are `|`; StagesCount, StagesHaveNoPipe, JoinStagesOfStages and StagesOfRun state what they are |
| Pipes.StagesCount | src/executor.c:163-169 | there is one stage more than there are `|` tokens |
| Pipes.StagesHaveNoPipe | src/executor.c:191-194 | no stage holds a `|` |
| Pipes.JoinStagesOfStages | src/executor.c:189-225 | joining the stages with `|` rebuilds the argument vector |
| Pipes.StagesOfRun | src/executor.c:191-225 | the stage scanned from a position up to the next `|` is the first stage, and the scan resumes after that `|` |
| Pipes.LaterStageEmpty | src/executor.c:172-178 | a stage after the first is empty exactly when some `|` is last or is followed by `|` |
| Pipes.EmptyStageCheck | src/executor.c:172-178 | the check (a `|` first, last, or followed by `|`) fires exactly when some stage is empty, for a non-empty vector |
| Pipes.CheckEmptyStages | src/executor.c:172-178 | the loop reports an empty stage exactly when the check fires at some index |
| Pipes.CountPipes | src/executor.c:166-169 | the loop counts the `|` tokens |
| Pipes.PipeCount | src/executor.c:163-169 | the number of `\|` tokens in the command; CountPipes states that the counting loop computes it, and StagesCount that there is one stage more than it |
| Pipes.StageStdioLinksNeighbours | src/executor.c:205-212 | each pipe k has exactly one writer, stage k, and exactly one reader, stage k+1; no stage gets a pipe end in the wrong direction; stderr is never rewired |
| Pipes.StageStdio | src/executor.c:205-212 | the streams of stage i of n: stdin from pipe i-1 unless first, stdout into pipe i unless last, stderr inherited; StageStdioLinksNeighbours states that this links each stage to its neighbours only |
| Pipes.PipeChild | src/executor.c:203-222 | the forked child of stage i runs the stage's words with the wiring of StageStdio and opens no file; StageStdioLinksNeighbours states that each pipe then joins stage k to stage k+1 only |
| Pipes.WireStage | src/executor.c:372-386 | the branches bind stage 0 to write pipe 0, a middle stage to read pipe i-1 and write pipe i, and the last stage to read pipe n-2 |
| Pipes.CreatePipes | src/executor.c:181-187 | the loop creates both ends of pipes 0..count-1 |
| Pipes.CloseAll | src/executor.c:214-217 | the close loop leaves no end of pipes 0..count-1 open |
| Pipes.StageEnd | src/executor.c:191-194 | the end of the stage is the first `|` at or after its start, or the end of the vector |
| Pipes.CopyStage | src/executor.c:196-201 | cmd holds exactly the tokens of the stage |
| Pipes.NextStage | src/executor.c:189-225 | one turn yields stage i; it is empty exactly when the scan did not move; the next stage starts after the `|` |
| Pipes.HandlePipes | src/executor.c:105-158 | without a `|`, or with nothing after it, nothing is forked and the pipe stays open in the parent; otherwise the left child runs tokens [0,i) writing the pipe, the right child runs everything after it reading the pipe, the parent closes both ends and waits for two |
| Pipes.ForkPipeStage | src/executor.c:190-225 | the child for stage i runs exactly that stage, wired to its neighbours, with every raw pipe end closed |
| Pipes.ForkPipeline | src/executor.c:189-226 | one child per stage, in order, each the wired stage |
| Pipes.HandleMultiplePipes | src/executor.c:162-236 | an empty stage is rejected before any pipe or fork. Otherwise there are (number of `|`)+1 children, one per stage in order, each wired to its neighbours; the parent closes all pipe ends and waits for every child |
| Pipes.FirstEmpty | src/executor.c:350 | the index of the first empty stage, with every earlier stage non-empty |
| Pipes.RedirectChildren | src/executor.c:341-472 | the first `count` children, child k being stage k run through the stage's own redirections over its pipe wiring |
| Pipes.KeptAtMost | src/executor.c:444 | a stage keeps no more arguments than it has tokens, so clean_cmd[50] suffices |
| Pipes.RunStage | src/executor.c:388-471 | a stage child closes every raw pipe end, applies its redirections over the pipe wiring, and aborts with `Error: Empty command.` when no argument is left, written to the stderr of its scan (its pipe write end after `2>&1`) |
| Pipes.StageOutcome | src/executor.c:394-471 | what a stage child reaches: the combined scan over its wiring, then the empty-command check; RunStage is proved equal to it, StageRedirectionsOverridePipe states it for any stage |
| Pipes.PipeRedirectPlan | src/executor.c:341-501 | the children forked, the message, the number waited for and the pipe ends kept, by where the first empty stage is; PlanForksAll, PlanStopsAtEmptyStage and PlanMissingAfterPipe state each case, and HandlePipeRedirect is proved equal to it |
| Pipes.PlanForksAll | src/executor.c:492-501 | with no empty stage every stage is forked and waited for |
| Pipes.PlanStopsAtEmptyStage | src/executor.c:350-358 | an empty stage that is not a trailing one stops the loop with the earlier stages forked and none waited for |
| Pipes.PlanMissingAfterPipe | src/executor.c:474-489 | a trailing `|` is found after the stage before it is forked: the missing command is reported and the forked stages are waited for |
| Pipes.ForkRedirectStage | src/executor.c:343-472 | one turn: no child for an empty stage, otherwise the child of that stage |
| Pipes.ForkedUpToEmpty | src/executor.c:350-358 | reaching an empty stage ends the loop as the plan says |
| Pipes.ForkedUpToTrailingPipe | src/executor.c:474-489 | a `|` that ends the vector ends the loop as the plan says |
| Pipes.ForkedNext | src/executor.c:369-474 | forking a non-empty stage moves the loop to the next stage |
| Pipes.ForkRedirectTurn | src/executor.c:342-490 | one turn either ends the loop as the plan says or advances it by one forked stage |
| Pipes.ForkRedirectPipeline | src/executor.c:341-490 | the stage loop yields exactly the planned children, message and number waited for |
| Pipes.HandlePipeRedirect | src/executor.c:319-502 | the handler matches the plan: with no empty stage, all stages are forked and waited for; a trailing `\|` is reported, and the forked stages are waited for; any other empty stage is reported with the stages before it forked and none waited for; the parent keeps no pipe end on any path. The order of the message and the waits is not modelled |
| Pipes.StageRedirectionsOverridePipe | src/executor.c:372-467 | inside a pipeline a stage's own `<`/`>`/`2>` win over its pipe ends; a stage of redirections alone aborts with `Error: Empty command.` after opening its files, writing the message down its pipe when it holds `2>&1` |
| Pipes.EmptyCommandWrittenToPipe | src/executor.c:439-452 | `2>&1 \| wc`: the first stage writes `Error: Empty command.` into pipe 0, which wc reads |
| Pipes.LeadingPipeRejected | src/executor.c:350-358 | `\| ls` forks nothing and waits for nothing |
| Pipes.DoubledPipeRejected | src/executor.c:350-358 | `ls \| \| wc` has forked `ls` when it rejects the empty stage, and does not wait for it |
| Pipes.TrailingPipeRejected | src/executor.c:474-489 | `ls \|` forks `ls`, reports the missing command, and waits for `ls` |
| Pipes.TwoStagePlan | src/executor.c:341-501 | two non-empty stages are both forked and waited for |
| Pipes.RedirectedPipeline | src/executor.c:319-502 | `cat < in.txt \| sort > out.txt`: cat reads in.txt and writes the pipe, sort reads the pipe and writes out.txt |
| Scheduler.Truncate | src/scheduler.c:38-39 | the stored command is the first min(length, 1023) characters of the given one: a prefix of it, the whole command when it fits, exactly 1023 characters when it does not |
| Scheduler.WellFormed | src/scheduler.c:28-38 | what add_task leaves in a task and each round keeps: a command under the 1024-byte buffer, a round count of 0 or more, a shell task with remaining -1 and fewer than 50 words (parsedCommand[50] at src/scheduler.c:220), a batch task with remaining > 0 and iteration + remaining = burst; SubmittedIsWellFormed, BatchRound and KeepOthersWellFormed state that it holds and is kept |
| Scheduler.NewTask | src/scheduler.c:28-39 | the record the add functions build; SubmittedIsWellFormed states that it is a well-formed queue entry, and Enqueue that it gets the counter as id |
| Scheduler.SubmittedIsWellFormed | src/scheduler.c:30-37 | a new task has remaining = burst, round 0 and iteration 0, which is a well-formed queue entry |
| Scheduler.Without | src/scheduler.c:86-105 | the queue after remove_task; WithoutFirst, WithoutAbsent and WithoutMembers state what it is |
| Scheduler.WithoutAbsent | src/scheduler.c:89-104 | removing a task that is not in the queue changes nothing |
| Scheduler.WithoutFirst | src/scheduler.c:92-101 | removal unlinks exactly the first task with that identity; the others keep their order |
| Scheduler.WithoutMembers | src/scheduler.c:86-105 | removal adds no task |
| Scheduler.UnlinkKeepsInvariant | src/scheduler.c:94-99 | unlinking a task keeps ids increasing and every task well formed |
| Scheduler.KeepOthers | src/scheduler.c:108-131 | the queue after remove_tasks_by_client; KeepOthersMembers, KeepOthersAppend, KeepOthersIdsIncrease and KeepOthersWellFormed state what it is |
| Scheduler.KeepOthersMembers | src/scheduler.c:108-131 | removal by client keeps exactly the tasks of other clients |
| Scheduler.KeepOthersAppend | src/scheduler.c:108-131 | removal by client distributes over concatenation, so relative order is kept |
| Scheduler.KeepOthersIdsIncrease | src/scheduler.c:108-131 | removal by client keeps ids increasing along the queue |
| Scheduler.KeepOthersWellFormed | src/scheduler.c:108-131 | removal by client keeps every task well formed |
| Scheduler.IsPick | src/scheduler.c:144-154 | the selection rule: the earliest shell task if there is one, else the earliest batch task of least remaining time; PickUnique states that at most one task meets it, Select that the loop finds it |
| Scheduler.PickUnique | src/scheduler.c:144-154 | at most one task satisfies the selection rule |
| Scheduler.NatToString | src/scheduler.c:175 | `%d` of a non-negative number is a non-empty string of digits |
| Scheduler.NatToStringValue | src/scheduler.c:175 | the digits denote the number, without a leading zero |
| Scheduler.NatToStringInjective | src/scheduler.c:175 | different numbers print differently |
| Scheduler.IntToString | src/scheduler.c:175 | the `%d` of an int: a minus sign before the digits of a negative number; NatToStringValue and NatToStringInjective state that the digits denote the number and that distinct numbers print differently |
| Scheduler.Quantum | src/scheduler.c:157 | 3 in a task's first round, 7 after it; BurstFiveRounds and FreshLifetime state the effect |
| Scheduler.Runtime | src/scheduler.c:158-159 | a shell task runs to completion, a batch task for the lesser of its quantum and its remaining time; BatchRound states it for well-formed tasks |
| Scheduler.IterationsThisRound | src/scheduler.c:168-170 | the round's runtime, capped by the iterations left; BatchRound states that it is the runtime for a well-formed batch task |
| Scheduler.DemoCount | src/scheduler.c:173 | how often the iteration loop body runs; BatchRound states that it equals the runtime, and RunDemoRound that the loop advances by it |
| Scheduler.AfterRound | src/scheduler.c:178-189 | the task after its round: iterations advanced, remaining time charged, one more round; BatchRound and ShellRound state what it is |
| Scheduler.Completes | src/scheduler.c:192 | the commit's completion test: no time left, or a shell task; BatchRound states that a batch task completes exactly when its remaining time reaches 0 |
| Scheduler.Commit | src/scheduler.c:185-199 | the queue after the commit: a completing task removed, any other stored back with its new state; Charge and Step are proved to produce it |
| Scheduler.DemoLine | src/scheduler.c:175 | the line sent for one iteration: `Demo <iteration>/<burst - 1>` and a newline; LifetimeLines and FreshLifetime state which of these lines a task sends |
| Scheduler.RoundLines | src/scheduler.c:168-179 | the lines of one batch round: DemoCount consecutive iterations from the current one; BatchRound bounds how many, and LifetimeLines states that the rounds together send each remaining iteration once, in order |
| Scheduler.Lifetime | src/scheduler.c:157-199 | the lines of a batch task's rounds, dispatch after dispatch, until it completes; LifetimeLines states that they are iterations current..burst-1, once each and in order |
| Scheduler.Rounds | src/scheduler.c:157-159 | the runtimes of a batch task's dispatches until it completes; RoundsSum states that they add up to the remaining time, and BurstFiveRounds gives burst 5 as 3 then 2 |
| Scheduler.ShellMessages | src/scheduler.c:224-228 | what execute_shell_command itself sends: a lone newline when the command has no tokens, nothing otherwise (what the child prints is not modelled) |
| Scheduler.RoundOutput | src/scheduler.c:166-183 | what a round sends before its commit: the demo lines of a batch task (src/scheduler.c:176) or the shell messages of a shell task; Dispatch states that the round sends exactly these |
| Scheduler.RoundMessages | src/scheduler.c:166-199 | everything one dispatch sends on the task's socket: the round's output, then `__TASK_DONE__` when the task completes (src/scheduler.c:194); OneSentinel states that the sentinel appears once in a completing round and never otherwise, and Step that a dispatch sends exactly these |
| Scheduler.BatchRound | src/scheduler.c:157-199 | a batch round runs min(quantum, remaining) > 0 iterations, keeps iteration + remaining = burst, never drives remaining below 0, increments the round, completes exactly when remaining reaches 0, and otherwise stays well formed |
| Scheduler.ShellRound | src/scheduler.c:180-195 | a shell task completes in its first dispatch, sends no demo line, and its round is incremented |
| Scheduler.LifetimeLines | src/scheduler.c:166-199 | over the rest of its life a batch task sends `Demo i/(B-1)` for each remaining i once, in order |
| Scheduler.FreshLifetime | src/scheduler.c:166-179 | a new task with burst B sends `Demo 0/(B-1)` to `Demo (B-1)/(B-1)`, once each, in order |
| Scheduler.RoundsSum | src/scheduler.c:157-192 | the iterations of all rounds add up to the remaining time |
| Scheduler.BurstFiveRounds | src/scheduler.c:157-179 | burst 5 runs 3 iterations, then 2 |
| Scheduler.Classify | src/scheduler.c:266-287 | the if-chain that picks the handler from the token flags; ClassifyCases states the exact condition for each handler, and ClassifyTokens that the flag loop computes it |
| Scheduler.ClassifyCases | src/scheduler.c:246-287 | for each of the seven handlers, the exact token condition under which it runs; `2>&1` counts as an error redirect |
| Scheduler.MergeAloneIsOutputRedirect | src/scheduler.c:259-286 | `ls 2>&1` goes to handleRedirect |
| Scheduler.ClassifyTokens | src/scheduler.c:246-277 | the flag loop and the pipe count pick the handler the classification rule gives |
| Scheduler.OneSentinel | src/scheduler.c:192-195 | a dispatch sends `__TASK_DONE__` exactly once when the task completes, and never otherwise |
| Scheduler.TaskQueue.constructor | src/scheduler.c:20-22 | the queue starts empty, with the id counter at 1 |
| Scheduler.TaskQueue.Enqueue | src/scheduler.c:28-50 | the new task, with the counter as id, is appended at the tail; earlier tasks are unchanged; the counter is incremented; ids stay increasing |
| Scheduler.TaskQueue.AddTask | src/scheduler.c:28-54 | as Enqueue, with no socket (-1) |
| Scheduler.TaskQueue.AddTaskWithSocket | src/scheduler.c:57-83 | as Enqueue, with the given socket |
| Scheduler.TaskQueue.RemoveTask | src/scheduler.c:86-105 | NULL changes nothing; otherwise the first task with that identity is unlinked and the others keep their order |
| Scheduler.TaskQueue.RemoveTasksByClient | src/scheduler.c:108-131 | the queue becomes the other clients' tasks, in their order |
| Scheduler.TaskQueue.Select | src/scheduler.c:143-154 | without changing the queue: the earliest shell task if there is one, else the earliest batch task with the least remaining time |
| Scheduler.TaskQueue.RunDemoRound | src/scheduler.c:166-179 | the iteration loop sends the round's demo lines in order and advances the iteration by their number |
| Scheduler.TaskQueue.ExecuteShellCommand | src/scheduler.c:219-287 | no tokens sends just a newline; otherwise nothing is sent by the parent before the fork, and the handler chosen is the classification of the parsed tokens |
| Scheduler.TaskQueue.Dispatch | src/scheduler.c:166-183 | the round sends the demo lines of a batch task, or what a shell task's parse sends |
| Scheduler.TaskQueue.Charge | src/scheduler.c:185-199 | the commit: a completing task gets the sentinel and is removed; any other is stored back with the new remaining time, round and iteration |
| Scheduler.TaskQueue.Step | src/scheduler.c:134-201 | an empty queue is left as it is; otherwise the task picked by the selection rule is dispatched and committed, and everything sent is the round's lines followed by the sentinel when it completes |

## Left out

- Process and file effects: `fork`, `execvp`, `dup2`, `close`, `open`, `pipe`, `wait` and `waitpid` are not run. What a child reaches is a value. A failing `fork`, `pipe()` or `open()` and its `perror` message are not modelled, and neither is the message written after a failed `execvp`.
- `noArgCommand` (src/executor.c:12-21) is not called by the scheduler's dispatch, so it is not modelled.
- The plain-exec branch of `execute_shell_command` (src/scheduler.c:288-301) is only chosen, not run; its failure messages depend on the outcome of `execvp`.
- Scheduler.TaskQueue.ExecuteShellCommand: the pipe to the child and the loop that forwards the child's output to the client (src/scheduler.c:231-243, 303-328) are pipe I/O and are not modelled. The log holds only what the parent sends itself.
- Sockets: `send` is an append to the `sent` log. The server's accept loop (src/server.c) and the clients (src/myshell.c, myshell.c) are not part of this model, nor is the stand-alone src/demo.c. Its line format is the one modelled at src/scheduler.c:175.
- Concurrency and timing: the mutex, the scheduler thread (`init_scheduler`), `sleep` and `usleep` are left out. `Step` is one pass of the infinite loop. Each add, including the `task_id_counter++` that the C code runs before it takes the mutex (src/scheduler.c:30, 59), is modelled as one atomic step. The unique, increasing ids that `Valid` keeps therefore rely on adds not racing, and so does identifying the task `remove_task` unlinks by its id rather than by its node pointer (src/scheduler.c:93). The round itself runs with the mutex released (src/scheduler.c:164-185). The model does not capture a task being added or removed by another thread while the selected task runs.
- Logging with `printf` is left out.
- Scheduler.TaskQueue.Enqueue: `task_id_counter` is an `int`; its 32-bit wrap-around after 2^31 - 1 tasks is not modelled, because the model's ids are unbounded integers.
- The linked list is a sequence. The tail walk of the add functions is an append, and unlinking through `prev->next` is a removal from the sequence. Task identity in `remove_task` is the task's id, which the queue invariant keeps unique.
- Shell tasks are assumed to be submitted with burst -1, and batch tasks with a positive burst. The submitter is not part of the model, so this is a precondition of the add methods and is kept as a queue invariant in `Valid`.
- Fixed array sizes are preconditions, not overflow. These are:
  - `cleanCommand[10]` in `handleRedirect`;
  - `cmd[50]` and `clean_cmd[50]`, required only of the stages that are copied: all of them in `handleMultiplePipes` once no stage is empty, and those before the first empty stage in `handlePipeRedirect`. The rejection paths demand nothing of the stages;
  - `parsedCommand[50]`;
  - `pipes[10]`;
  - the 1024-byte `command` field, which is modelled by its truncation instead.
- Strings: a Dafny `string` stands for a C `char` array, one `char` per byte. The 1023 of `Truncate` therefore counts bytes, as `strncpy` does. Multibyte encodings are not modelled.
- `strtok` writes NUL bytes into the task's command buffer, and `parseInput` stores pointers into it. The model returns fresh strings and leaves the task's command as it was.
- `handlePipes` writes NULL into the caller's array at src/executor.c:122. The model does not write the caller's vector.
- Pipes.HandlePipes: the right child gets every token after the first `|`, later `|` tokens included, as `&command[i+1]` does. The model states this and does not reject it.
- Pipes.HandleMultiplePipes: it requires at least one `|`, and at most ten only when no stage is empty, since only then are pipes created. The dispatcher calls it only with two or more and no redirection.
- Pipes.ForkRedirectPipeline: after the last stage, the C code reads `command[cmd_start]`, one slot past the NULL terminator, before it tests `i < cmd_count - 1` (src/executor.c:477). The model tests the stage index only.
- In a conventional shell, `> out.txt 2>&1` sends stderr to out.txt. This code sends it to the stdout in force when `2>&1` is scanned, which is the entry stdout because `>` is bound only after the scan. The model follows the code.
