# Tool runner: argument handling, quoting, command rendering and completion

This project models the core of the tool runner used by a GitHub Actions
toolkit. The runner builds a command line for an external tool and decides
when the spawned process counts as finished. The model covers:

- **ArgTokenizer** (`tokenizer.dfy`): `_argStringToArray`, the tokenizer
  that `line()` uses. It splits on spaces outside double quotes, drops the
  quotes, and treats a backslash as an escape only inside quotes. The spec
  function is a fold of one character step. The loop method
  `ArgStringToArray` is proved equal to it.
- **Quoting** (`quoting.dfy`): `_uv_quote_cmd_arg`, the port of libuv's
  `quote_cmd_arg`, and `_windowsQuoteCmdArg`, the cmd.exe variant used when
  the tool is a `.cmd`/`.bat` script. Both share one reverse scan, modelled
  once as `ReverseScanQuote`. It is proved against a forward definition
  `Escaped`. The partner is `ParseArg`, a model of how the Microsoft C
  runtime reads one quoted or bare argument back. Both quoting functions
  are proved to round-trip through it.
- **Rendering** (`rendering.dfy`): `_getSpawnFileName`, `_getSpawnArgs`,
  `_getCommandString` for one runner, and `_getSpawnSyncOptions`. The
  platform and `COMSPEC` are a `Host` value.
- **Runner** (`runner.dfy`): the `ToolRunner` class, with its tool path,
  its argument list and its optional successor. It has `arg`, `line`,
  `argIf` and `pipeExecOutputToTool`, and renders a whole pipeline.
- **Completion** (`completion.dfy`): `ExecState`, as a class whose methods
  are tied to a pure state machine (`Check`, `Finalize`, `Timeout`). Event
  sequences run through `Run` show that at most one `'done'` is ever
  emitted.
- **Utility** (`utility.dfy`): `getExecutableExtension`, `isEqual` and
  `checkForErrors`. Warnings and the thrown error are returned as a
  `Report` value.

Behaviours of the code that a reader might not expect, all kept by the
model:

- a tab is not an argument delimiter for `line()`;
- inside quotes `\\` yields two backslashes, not one;
- a backslash pending at the end of the line is dropped;
- `CheckComplete` finishes as soon as stdio is closed, even when no exit
  was recorded, and then reports no error (`CloseFinishesBeforeExit`);
- an absent exit code counts as non-zero;
- an empty `COMSPEC` falls back to `cmd.exe`, like an unset one.

## Model

| member | source | states |
|---|---|---|
| Strings.Trim | src/utilities/tool-runner.ts:491 | `trim` returns a slice of its input with only whitespace before and after it, starting and ending with a non-blank; the result is empty iff the input is whitespace throughout |
| Strings.TrimSlice | src/utilities/tool-runner.ts:491 | `trim` keeps exactly the part between whitespace-only ends that starts and ends with a non-blank |
| Strings.Upper | src/utilities/utility.ts:22 | `toUpperCase` keeps the length and maps each ASCII lower-case letter to its capital, leaving other characters alone |
| Strings.Reverse | src/utilities/tool-runner.ts:365 | `split('').reverse().join('')` keeps the length and puts character `k` at position `n-1-k` |
| ArgTokenizer.AppendChar | src/utilities/tool-runner.ts:85-93 | the `append` closure: after a pending backslash, a non-quote character keeps the backslash; the flag is then cleared |
| ArgTokenizer.ArgStringToArray | src/utilities/tool-runner.ts:77-139 | the character loop plus the final push returns exactly the fold `Tokenize` of the input |
| ArgTokenizer.ConsistentRun | src/utilities/tool-runner.ts:120-128 | after any prefix a backslash is pending only inside quotes |
| ArgTokenizer.LineExample | src/utilities/tool-runner.ts:499 | `"arg one" two -z` splits into `arg one`, `two`, `-z` |
| ArgTokenizer.LeadingSpaceIgnored | src/utilities/tool-runner.ts:98-105 | leading spaces produce no empty argument |
| ArgTokenizer.SpaceRunsCollapse | src/utilities/tool-runner.ts:98-105 | outside quotes two spaces split like one |
| ArgTokenizer.QuotesNeverCopied | src/utilities/tool-runner.ts:110-118 | without backslashes no token contains a double quote |
| ArgTokenizer.SpacesOnlyInsideQuotes | src/utilities/tool-runner.ts:98-105 | without double quotes no token contains a space |
| ArgTokenizer.EscapedQuoteInQuotes | src/utilities/tool-runner.ts:110-128 | inside quotes `\"` adds a literal quote and stays inside |
| ArgTokenizer.BackslashKeptInQuotes | src/utilities/tool-runner.ts:85-93 | inside quotes a backslash before another character is kept with it |
| ArgTokenizer.BackslashLiteralOutsideQuotes | src/utilities/tool-runner.ts:125-131 | outside quotes a backslash is an ordinary character |
| ArgTokenizer.TabIsNotDelimiter | src/utilities/tool-runner.ts:98 | a tab is appended to the current argument, not a split |
| ArgTokenizer.PendingBackslashDropped | src/utilities/tool-runner.ts:134-136 | a trailing backslash inside an unclosed quote leaves the result unchanged |
| ArgTokenizer.OnlyLastTrimmed | src/utilities/tool-runner.ts:134-136 | only the last argument is trimmed; quoted earlier ones keep their whitespace |
| ArgTokenizer.QuotedThenTwo | src/utilities/tool-runner.ts:95-139 | a quoted segment followed by two bare words gives three arguments, the quotes removed |
| ArgTokenizer.JoinRoundTrip | src/utilities/tool-runner.ts:77-139 | tokenizing the space-join of simple tokens gives the tokens back |
| Quoting.ReverseScanQuote | src/utilities/tool-runner.ts:348-365 | the reverse scan returns the argument wrapped in quotes, with each quote escaped and the backslashes before a quote or the end doubled |
| Quoting.UvQuoteCmdArg | src/utilities/tool-runner.ts:368-447 | the libuv quoting equals `UvQuote`: empty gives `""`, no blank or quote gives it unchanged, otherwise wrapped and escaped |
| Quoting.UvQuoteCases | src/utilities/tool-runner.ts:397-411 | the four branches: empty, unchanged, wrapped as is, wrapped with escapes |
| Quoting.UvQuoteTwoQuotes | src/utilities/tool-runner.ts:416-417 | `hello""world` becomes `"hello\"\"world"` |
| Quoting.UvQuoteBackslashesAlone | src/utilities/tool-runner.ts:418-421 | backslashes in an argument with no blank or quote are left alone |
| Quoting.UvQuoteRunBeforeQuote | src/utilities/tool-runner.ts:422-425 | `m` backslashes before a quote become `2m+1` before it |
| Quoting.UvQuoteTrailingRun | src/utilities/tool-runner.ts:426-428 | a trailing run of backslashes is doubled inside the closing quote |
| Quoting.UvQuoteRoundTrip | src/utilities/tool-runner.ts:368-447 | the C runtime reads every libuv-quoted argument back as the original |
| Quoting.EndsWithIsSuffix | src/utilities/tool-runner.ts:264-266 | `_endsWith` holds iff the string is some prefix followed by the ending |
| Quoting.IsCmdFileIff | src/utilities/tool-runner.ts:259-262 | a tool is a script iff its upper-cased path ends in `.CMD` or `.BAT` |
| Quoting.WindowsQuoteCmdArg | src/utilities/tool-runner.ts:268-366 | the cmd.exe quoting equals `WindowsQuote`: libuv rules for executables, `""` for empty, unchanged without special characters, otherwise the reverse scan with quotes doubled |
| Quoting.WindowsQuoteCases | src/utilities/tool-runner.ts:268-299 | the branches: delegate to libuv, empty, no special character, quoted |
| Quoting.WindowsQuoteInnerRun | src/utilities/tool-runner.ts:320 | `hello \world` is wrapped with its backslash unchanged |
| Quoting.WindowsQuoteRunBeforeQuote | src/utilities/tool-runner.ts:321-322 | `m` backslashes before a quote become `2m` followed by a doubled quote |
| Quoting.WindowsQuoteTrailingRun | src/utilities/tool-runner.ts:323 | `hello world\` gets its trailing backslashes doubled inside the quotes |
| Quoting.WindowsQuoteKeepsBackslashes | src/utilities/tool-runner.ts:287-299 | backslashes are not special: an argument without special characters is returned as is |
| Quoting.WindowsQuoteWrapsPlain | src/utilities/tool-runner.ts:301-305 | an argument needing quotes but holding no quote or backslash is only wrapped |
| Quoting.WindowsQuoteRoundTrip | src/utilities/tool-runner.ts:310-318 | the C runtime reads every cmd-quoted argument back as the original |
| Quoting.PlainIsBare | src/utilities/tool-runner.ts:287 | the cmd.exe special set includes every character libuv quotes for |
| Rendering.SpawnFileName | src/utilities/tool-runner.ts:186-194 | a script on Windows is spawned through `COMSPEC` (or `cmd.exe`), anything else directly |
| Rendering.AppendEach | src/utilities/tool-runner.ts:199-202 | the loop adds a space and each quoted (or verbatim) argument in order |
| Rendering.GetSpawnArgs | src/utilities/tool-runner.ts:196-257 | the spawn arguments equal `SpawnArgs`: a single `/D /S /C "…"` line for a script, the arguments themselves otherwise |
| Rendering.CmdLineJoin | src/utilities/tool-runner.ts:196-207 | the script line is the quoted tool and arguments joined by spaces, and each piece reads back as its argument |
| Rendering.SpawnArgsDirect | src/utilities/tool-runner.ts:209-256 | a non-script tool is spawned by its own path with the argument list unchanged |
| Rendering.GetStageString | src/utilities/tool-runner.ts:141-177 | one runner's command string equals the prefix followed by `StageString` |
| Rendering.StageStringJoin | src/utilities/tool-runner.ts:145-177 | each platform branch is its pieces joined by spaces: plain on Unix, verbatim, quoted, or through the interpreter |
| Rendering.UnixCommandTokenizes | src/utilities/tool-runner.ts:175-177 | on Unix the command string of simple tokens tokenizes back to the tool and its arguments |
| Rendering.SyncOptions | src/utilities/tool-runner.ts:464-470 | cwd and env are copied; arguments are verbatim iff requested or the tool is a script |
| Runner.ToolRunner.constructor | src/utilities/tool-runner.ts:57-67 | a new runner has the tool path, no arguments and no successor |
| Runner.ToolRunner.Create | src/utilities/tool-runner.ts:57-67 | an empty tool path fails with the source's message, any other yields a fresh runner |
| Runner.ToolRunner.Arg | src/utilities/tool-runner.ts:480-495 | appends nothing for a falsy value, the trimmed string, or the array's elements; the successors are unchanged |
| Runner.ToolRunner.Line | src/utilities/tool-runner.ts:505-513 | appends the tokens of a non-empty line and nothing for an empty one |
| Runner.ToolRunner.ArgIf | src/utilities/tool-runner.ts:524-529 | appends what `arg` would when the condition holds, nothing otherwise |
| Runner.ToolRunner.PipeExecOutputToTool | src/utilities/tool-runner.ts:537-540 | records the tool as the successor; the pipeline becomes this stage followed by the tool's |
| Runner.ToolRunner.GetCommandString | src/utilities/tool-runner.ts:141-184 | the pipeline's string equals `ChainString` of its stages |
| Runner.ChainJoin | src/utilities/tool-runner.ts:179-183 | the pipeline string is the prefix and the stages joined by ` \| ` in order |
| Runner.ChainStartsWith | src/utilities/tool-runner.ts:144 | only the first stage carries `[command]`, and it is omitted under `noPrefix` |
| Runner.ArgWhitespaceOnly | src/utilities/tool-runner.ts:481-491 | a whitespace-only string is truthy and adds one empty argument |
| Runner.ArgTrims | src/utilities/tool-runner.ts:491 | any amount of surrounding whitespace is removed and the rest is appended unchanged |
| Runner.LineLikeArgArray | src/utilities/tool-runner.ts:499 | `line('"arg one" two -z')` appends what `arg(['arg one', 'two', '-z'])` appends |
| Completion.ExecState.constructor | src/utilities/tool-runner.ts:583-599 | a fresh state has no flags, no timer and nothing emitted; the delay is the override if given, else 10000 |
| Completion.ExecState.Create | src/utilities/tool-runner.ts:589-591 | an empty tool path fails with the source's message |
| Completion.ExecState.CheckComplete | src/utilities/tool-runner.ts:612-623 | the new state is `Check` of the old |
| Completion.ExecState.SetResult | src/utilities/tool-runner.ts:625-648 | the new state is `Finalize` of the old: one outcome emitted, timer cleared, done |
| Completion.ExecState.HandleTimeout | src/utilities/tool-runner.ts:650-660 | the new state is `Timeout` of the old |
| Completion.DoneIsIdle | src/utilities/tool-runner.ts:612-615 | once done, `CheckComplete` and the timer change nothing |
| Completion.CheckFinishesWhenClosed | src/utilities/tool-runner.ts:617-619 | with stdio closed `CheckComplete` finishes and emits |
| Completion.CheckArmsTimer | src/utilities/tool-runner.ts:620-622 | exited but not closed: only the timer is armed |
| Completion.CheckWaits | src/utilities/tool-runner.ts:612-623 | neither exited nor closed: nothing changes |
| Completion.TimeoutFinishes | src/utilities/tool-runner.ts:650-660 | a timer firing before done finishes with exactly one emission |
| Completion.FinalErrorCases | src/utilities/tool-runner.ts:626-638 | an error only after exit, in the order process error, exit code, stderr |
| Completion.ApplyConsistent | src/utilities/tool-runner.ts:612-660 | each event keeps "done iff one outcome emitted" and emits nothing after done |
| Completion.RunConsistent | src/utilities/tool-runner.ts:646-647 | any event sequence emits `'done'` at most once |
| Completion.RunExtends | src/utilities/tool-runner.ts:612-660 | emissions are only appended, and done stays done |
| Completion.ExitCloseCheck | src/utilities/tool-runner.ts:612-648 | exit, close, check emits one outcome carrying the exit code |
| Completion.ExitThenTimeout | src/utilities/tool-runner.ts:620-660 | exit then check arms the timer without finishing; the timer then emits once |
| Completion.RunGrounded | src/utilities/tool-runner.ts:617-622 | from a fresh state, `'done'` is emitted only after the process exited or closed its stdio, whatever the events |
| Completion.UnarmedTimerIgnored | src/utilities/tool-runner.ts:620-621 | the only timer is the one armed after exit, so no timer finishes a process that neither exited nor closed |
| Completion.CloseFinishesBeforeExit | src/utilities/tool-runner.ts:617-619 | close then check finishes with no error and no exit code |
| Utility.GetExecutableExtension | src/utilities/utility.ts:4-10 | `.exe` iff the OS type starts with `Win`, otherwise empty |
| Utility.ExecutableExtensionExamples | src/utilities/utility.ts:5 | the prefix test is case-sensitive: `Windows_NT` gives `.exe`, `windows` does not |
| Utility.IsEqualNulls | src/utilities/utility.ts:13-19 | two nulls are equal; a null and a string are not |
| Utility.IsEqualExact | src/utilities/utility.ts:23-25 | without `ignoreCase` equality is exact |
| Utility.IsEqualEquivalence | src/utilities/utility.ts:12-26 | reflexive, symmetric and transitive in both modes |
| Utility.ExactImpliesIgnoreCase | src/utilities/utility.ts:21-25 | exactly equal strings are equal ignoring case |
| Utility.IsEqualIgnoreCaseIff | src/utilities/utility.ts:21-22 | ignoring case, equal iff the upper-cased strings are equal |
| Utility.IsEqualUpper | src/utilities/utility.ts:21-22 | a string equals its upper-case form ignoring case, and exactly iff it has no lower-case letter |
| Utility.CheckForErrors | src/utilities/utility.ts:28-48 | the loop's warnings and error equal the fold `Errors` |
| Utility.ErrorsEmpty | src/utilities/utility.ts:29 | no results: no warning, no error |
| Utility.SucceedingRunNeverFails | src/utilities/utility.ts:32-37 | a result with exit code 0 or no stderr adds nothing to the collected errors |
| Utility.CollectedAppend | src/utilities/utility.ts:30-39 | collected stderr of a concatenation is the concatenation of the collected stderr |
| Utility.CollectedEmptyIff | src/utilities/utility.ts:40 | nothing is collected iff no result failed |
| Utility.ErrorIff | src/utilities/utility.ts:40-45 | an error is raised iff some result failed, with the trimmed collected text; with `warnIfError` never, and the trimmed text, if any, is the last warning |
| Utility.TwoFailures | src/utilities/utility.ts:30-45 | two failing results raise one error with both messages, separated by a newline |

## Left out

- Process spawning, stdio streams, `exec`/`execSync` and `os.EOL` are left out. They are I/O.
- Events, timers and logging (`core.debug`, `core.warning`) become values: an armed-timer flag, an `emitted` list, a `warnings` list.
- `Completion.ExecState.HandleTimeout` does not model the `LIB_StdioNotClosed` debug line.
- `Completion.ExecState.constructor` takes the delay override already parsed; `parseInt` of the environment variable and a `NaN` delay are not modelled.
- `Completion.FinalError` gives the kind of error and its data, not the message text.
- `Strings.Upper` maps only ASCII letters; full Unicode case mapping and UTF-16 code units are not modelled.
- `Quoting.ParseArg` models the C runtime reader only for one argument that is bare or wrapped in quotes. Splitting a whole command line and cmd.exe `%var%` expansion are not modelled.
- `Rendering.SpawnArgs` gives the contents of the verbatim argument array. The replaced `slice`/`unshift` methods that keep node from re-quoting it are left out; they only change how node reads the array.
- `Runner.ToolRunner.Arg` accepts absent, string and array values; other JavaScript values (numbers, objects) are left out.
- `Runner.ToolRunner.Line` takes a string; `null` is modelled as the empty string, which appends nothing like the source.
- `Runner.ToolRunner.PipeExecOutputToTool` requires that the new successor does not lead back to this runner. On such a cycle the source's `_getCommandString` would recurse without end. `Valid()` also fixes each successor's footprint when it is linked, so a runner that already pipes into this one is no longer `Valid()` after this call, and its command string cannot be requested: chains are linked from the end (`b` to `c` before `a` to `b`). The source allows either order. The unused `file` parameter is dropped, and the builder methods do not return `this` for chaining.
- `Utility.GetExecutableExtension` takes the OS type as a parameter instead of reading `os.type()`.
- `_cloneExecOptions`, `sleep`, `getRandomInt` and `getCurrentTime` are left out. They are copying, timing and randomness.
