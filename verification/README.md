# Shutdown, sessions, reporting loops and configuration, verified

This project models the parts of the workspace CLI, agent and provisioner daemon whose correctness rests on
orderings, counting or round trips, and proves what they promise. `dafny verify dfyconfig.toml` checks all of it.

The concurrent parts are state machines: a `State`, one `Event` per channel operation, lock region, tick or
completion, `Enabled` and `Apply`, and `Run`, which is defined for exactly the interleavings that can happen.
Theorems about them hold for every run. Beside each machine stands a class whose fields and methods are the
program's own fields and lock regions; every method is proved to make exactly the machine's step. Parsers,
writers and arithmetic are functions and methods, proved against definitions that do not mention them.

| file | what it models |
|---|---|
| `CloserStack.dfy` | the newest-first shutdown of `closerStack` in `cli/ssh.go` |
| `UnbiasedModulo.dfy`, `StringUniform.dfy` | random indexes and strings in `cryptorand/strings.go` |
| `SshSection.dfy`, `SshOptions.dfy`, `SshOptionList.dfy`, `SshConfig.dfy`, `SshReadBack.dfy`, `SshHosts.dfy`, `SshBlocks.dfy`, `SshCommand.dfy` | the managed section of the ssh config in `cli/configssh.go` |
| `Session.dfy` | a provisioner session in `provisionersdk/session.go` |
| `Provisionerd.dfy` | acquire loop, shutdown and close in `provisionerd/provisionerd.go` |
| `Lifecycle.dfy`, `Metadata.dfy` | the lifecycle and metadata loops in `agent/agent.go` |
| `Stats.dfy`, `AppHealth.dfy` | the stats loop in `agent/stats.go` and app health in `agent/apphealth.go` |
| `ParameterResolver.dfy` | `cli/parameterresolver.go` |
| `Ping.dfy` | the summary in `cli/ping.go` |
| `Wrappers.dfy`, `Ranges.dfy` | options, results and sizes of finite sets |

## Where the code does less than one may expect

Each of these has a theorem with the exact condition, and a lemma at an input.

- When `close` of the closer stack returns, every closer's goroutine has been launched, but after a tick the
  closer's `Close` may not have been called yet. All closers have finished on return, in every run, exactly when no
  tick is received or there are no closers (`ShutdownLoop.ClosedOnReturnIff`, `OneTickSkipsNewest`); only the newest
  closers, as many as the ticks received, can be unfinished (`OutstandingBound`).
- A failed `UpdateLifecycle` has already spent its wake-up. It is retried, in some continuation without a further state,
  exactly when another wake-up is buffered or on its way (`LifecycleProtocol.FailureIsRetriedIff`,
  `LostWakeupExample`); otherwise no number of reconnects helps (`StrandedUntilNextState`).
- The ssh section takes the byte before its start marker and the byte after its end marker, whatever they are. The
  user's text survives exactly when both markers stand on lines of their own and the first is not preceded by a lone
  empty line at the start of the file (`Sections.UserTextKeptIff`, `UserTextLostExample`).
- Every run of `config-ssh` splits the file and parses the section it finds before it writes. A second run of the same
  command refuses the file if a value holds a marker, panics if a line of the section makes the parser panic, and
  otherwise writes what it would have written on the original file (`SshCommand.SecondRun`,
  `SshConfig.MarkerInHeaderExample`, `SshCommand.LongValueExample`).
- The option parser panics exactly on a section with an over-long line or with a line that is a known key and nothing
  else (`SshOptions.ParsePanicsIff`, `BareKeyExample`).
- Options are read back by the next run exactly when no value has a line break, a trailing carriage return or a line too
  long for the scanner, and every line of the host blocks fits as well; names, standard and deployment options are taken
  to be one-line here (`SshCommand.CommandReadsBackIff`, `SshReadBack.CarriageReturnExample`). The proxy command takes all
  headers on one line, so headers that fit one by one may not fit together (`SshCommand.LongHeadersExample`).
- The deployment's ssh options come in Go's random map order. For one-line options, runs of the same command leave each
  other's output alone, in all orders, exactly when no value holds a marker, no line is over-long, and no host is written
  or at most one deployment option can be added and no other takes its key out (`SshCommand.RerunIsStableIff`,
  `HostOptions.MapOrderExample`).
- The comment on `addOptions` says that an option with the same key is overridden. It is kept beside the new one; keys
  stay distinct exactly when the new option adds nothing or its key is new (`OptionList.AddKeepsDistinctIff`,
  `DuplicateIsKept`).
- `pingSummary.Max` is compared with `Min`. It is the maximum exactly when nothing after some maximal latency rises
  above the minimum up to there (`Ping.MaxIsMaximumIff`, `MaxExample`).
- A value given on the command line is staged exactly when none is taken over for its parameter from the source
  workspace or the last build, or the same one is (`ParameterResolver.FlagSurvivesIff`, `FlagIsOverriddenExample`).
- Close fails the job that was active when the first close call took the lock, and no job started after that, although its
  comment says that it marks any running jobs as failed (`ProvisionerdProtocol.FailedIsActiveAtClose`, `LateJobExample`).
- A failed post of the apps' health is not repeated. The server can still get the health map, without a further change of
  it, exactly when it has it already or the map has changed since the last copy
  (`HealthReports.FailedPostIsRepeatedIff`, `StaleServerExample`).

Two more facts about a session: calls are made for exactly the parse, plan and apply requests answered or in service, so a
request of none of these types is answered without a call (`SessionProtocol.CallsServeRequests`); and only the last request
of the stream can be lost between reader and loop, only after the loop has ended with an error, which does happen
(`SessionProtocol.AtMostOneDropped`, `DropExample`).

## Model

| member | source | states |
|---|---|---|
| ShutdownLoop.StepKeepsInv | cli/ssh.go:987-1023 | Every tick, receive, call, return and send keeps the invariant tying the channel's contents, the countdown, the goroutines and the launch order together |
| ShutdownLoop.RunKeepsInv | cli/ssh.go:987-1023 | The invariant holds after every interleaving of the loop, the ticker and the goroutines |
| ShutdownLoop.NoSendBlocks | cli/ssh.go:988-1014 | In every reachable state at most 2n messages are buffered, and a goroutine or tick that is about to send finds room, also after the loop is gone |
| ShutdownLoop.RunningBound | cli/ssh.go:1016-1023 | The closers running at once are at most one plus the countdown messages received |
| ShutdownLoop.OutstandingBound | cli/ssh.go:1016-1023 | Once the loop has left, every closer whose countdown value was not received has finished, so at most as many are unfinished as ticks were received |
| ShutdownLoop.CountdownEndsLoop | cli/ssh.go:1003-1019 | Hung closers cannot hold the loop: once the countdown is over the 0 that ends it is in the channel, and at most 2n+1 messages are ever sent |
| ShutdownLoop.QuietCalls | cli/ssh.go:982-1023 | Without ticks, Close has been called on all closers, strictly newest to oldest, when the loop returns |
| ShutdownLoop.OneTickSkipsNewest | cli/ssh.go:1007-1019 | For every n there is a run with one tick that returns before the newest closer's Close is called |
| ShutdownLoop.ClosedOnReturnIff | cli/ssh.go:1016-1023 | All runs with at most t ticks have every closer finished on return if and only if t or n is 0 |
| CloserStackProtocol.RunKeepsInv | cli/ssh.go:967-1039 | Every interleaving of pushes, close calls and the shutdown loop keeps each item in exactly one of stack, being refused, refused and closed |
| CloserStackProtocol.EveryItemClosedOnce | cli/ssh.go:967-1039 | The stack is the items pushed before the first close call, in order; every pushed item is on it, being refused, or refused and closed; Close is called at most once on each item and only on pushed ones; a refused item is closed before push returns the first cause; once any close call returns, all stacked items were launched newest first and are closed or about to be |
| CloserStackProtocol.StackIsPushes | cli/ssh.go:1026-1039 | Over every run the stack grows by exactly the items pushed before the first close call, in the order of the pushes |
| CloserStackProtocol.LastPushedIsClosedFirst | cli/ssh.go:982-1039 | When a close call has returned without a tick, the items pushed before the first close call have been closed in the reverse order of their pushes |
| CloserStackProtocol.QuietShutdownIsSerial | cli/ssh.go:982-1023 | A returned close without ticks has closed and finished every stacked item, newest to oldest |
| CloserStackProtocol.ShutdownIsBounded | cli/ssh.go:987-1023 | In every run: no blocked send, every launched closer but the latest finished or overtaken by its countdown message, bounded concurrency, after the return only the newest closers unfinished, at most one per tick, and a final message once the countdown is over |
| CloserStackProtocol.FirstCauseIsKept | cli/ssh.go:967-976 | The stored error is the cause of the first close call, whatever later ones pass |
| CloserStackObject.Shutdown.constructor | cli/ssh.go:977-1005 | The loop's variables start in the machine's initial state, with and without closers |
| CloserStackObject.Shutdown.Tick | cli/ssh.go:1007-1014 | The ticker's function is the machine's tick |
| CloserStackObject.Shutdown.Receive | cli/ssh.go:1016-1023 | One iteration of the loop is the machine's receive, and launches at most the closer it returns |
| CloserStackObject.Shutdown.SendFinished | cli/ssh.go:993-993 | A goroutine's deferred send is the machine's send |
| CloserStackObject.CloserStack.constructor | cli/ssh.go:952-960 | A new stack is the machine's initial state |
| CloserStackObject.CloserStack.Push | cli/ssh.go:1026-1039 | The lock region of push accepts exactly when the stack is open and then puts the item on top, as the machine does |
| CloserStackObject.CloserStack.Close | cli/ssh.go:967-976 | The lock region of close makes exactly the first caller the closer and keeps its cause |
| UnbiasedModulo.UnbiasedModulo32 | cryptorand/strings.go:46-61 | The loop returns the index of the first accepted word and leaves the rest of the reader; it is below n; it fails only when words run out |
| UnbiasedModulo.Draw | cryptorand/strings.go:46-61 | An index drawn with any number of redraws is below n |
| UnbiasedModulo.ThresholdIsRemainder | cryptorand/strings.go:50-50 | The unsigned negation modulo n is 2^32 mod n |
| UnbiasedModulo.AcceptedProducts | cryptorand/strings.go:47-60 | A word is accepted for index r exactly when its product lies in an interval of n times floor(2^32/n) integers |
| UnbiasedModulo.IndexIsUniform | cryptorand/strings.go:46-61 | For every n and every index below n exactly floor(2^32/n) words are accepted and give that index |
| UnbiasedModulo.RejectedCount | cryptorand/strings.go:49-51 | Exactly 2^32 mod n words are redrawn |
| UnbiasedModulo.DrawIsUniform | cryptorand/strings.go:46-61 | Over all streams of l words, redraws included, every index has the same number of streams, and n times it misses only the streams redrawn to the end |
| UnbiasedModulo.WordsAreBlocks | cryptorand/strings.go:87-88 | Big-endian decoding is a bijection between four-byte blocks and words |
| UnbiasedModulo.BigEndian | cryptorand/strings.go:87-87 | The first byte of a word counts most |
| UnbiasedModulo.WordAt | cryptorand/strings.go:86-88 | Word i is read from the i-th four bytes of the entropy |
| UnbiasedModulo.DrawRunes | cryptorand/strings.go:86-99 | The loop over the entropy buffer draws one rune per four bytes, each redraw continuing where the reader was left |
| UnbiasedModulo.StringCharset | cryptorand/strings.go:64-102 | A string of exactly `size` runes of the charset, or the error of an empty charset or of missing entropy |
| StringUniform.TextPicks | cryptorand/strings.go:86-101 | The string is the charset read at the indexes drawn |
| StringUniform.StringIsUniform | cryptorand/strings.go:64-102 | Every sequence of indexes of a given length comes from the same number of inputs (entropy and l words to redraw from), although a redraw shifts what later runes see |
| Occurrences.IndexFrom | cli/configssh.go:734-735 | The first occurrence of a token, and -1 only if there is none |
| Occurrences.AtMostOneIff | cli/configssh.go:728-732 | For the markers, a count of non-overlapping occurrences of at most one means that there is at most one occurrence |
| Sections.SplitConcat | cli/configssh.go:727-760 | before, section and after together are the input |
| Sections.SplitOutcome | cli/configssh.go:727-760 | Which error or which parts a file gives, in terms of where the markers occur: a second marker of either kind counts first, then a missing one, then their order |
| Sections.PartsHaveNoMarkers | cli/configssh.go:727-760 | The parts around the section hold neither marker |
| Sections.SplitRewritten | cli/configssh.go:727-760 | Splitting a rewritten file gives back its before, section and after |
| Sections.RewriteIsFixedPoint | cli/configssh.go:359-372 | Rewriting keeps before and after, and with the same body changes nothing the second time |
| Sections.RerunIff | cli/configssh.go:482-490 | A second rewrite gives the same bytes if the body is free of markers, and is refused as having multiple sections otherwise |
| Sections.UserTextKeptIff | cli/configssh.go:745-756 | Replacing a section leaves the text outside its markers unchanged if and only if the markers stand on lines of their own |
| Sections.UserTextLostExample | cli/configssh.go:745-756 | A byte before the start marker on its line is gone after a rewrite |
| Lines.SplitJoin | cli/configssh.go:682-683 | The scanner sees exactly the lines that were written |
| SshOptions.WriteList | cli/configssh.go:658-663 | One option line per value, in order, after what is written so far |
| SshOptions.OptionTexts | cli/configssh.go:649-666 | The six option lines as they stand in a file |
| SshOptions.ParseLastOptions | cli/configssh.go:678-711 | The scanner loop is the fold of the line parser over the section's lines; it panics exactly if some line is over-long or a bare known key, as the first such line says |
| SshOptions.ParsePanicsIff | cli/configssh.go:678-711 | Whatever was read before, parsing fails if and only if a line is over-long or is a known key without '=', and the first such line decides how |
| SshOptions.BareKeyExample | cli/configssh.go:685-689 | A wait key alone is an index out of range |
| SshOptions.OptionLineSets | cli/configssh.go:685-700 | A written option line, read, sets its own field to its whole value, further '=' included |
| SshOptions.ParseOptionLines | cli/configssh.go:650-666 | The option lines read back give all six fields, repeated values in order, each without one trailing carriage return |
| SshOptions.ParsedIsOneLine | cli/configssh.go:678-711 | No parsed value has a line break |
| SshBody.BodyAbsentIff | cli/configssh.go:638-672 | The written body holds a marker if and only if one of the option values, host names or host options does |
| SshConfig.WriteSectionHeader | cli/configssh.go:638-672 | The writer appends the start marker, the fixed lines, and the option lines under their heading only if there are any |
| SshConfig.WriteHosts | cli/configssh.go:469-478 | One block per host: its name, then its options indented |
| SshBody.HostLinesConcat | cli/configssh.go:401-480 | The blocks stand in the order of the hosts |
| SshBody.BlockLines | cli/configssh.go:469-478 | A block is the host's name and its options, one to a line |
| SshBody.IndentedAt | cli/configssh.go:472-475 | Option i of a host stands on line i below its name, after a tab |
| SshConfig.ConfigSsh | cli/configssh.go:359-372 | For given host blocks the assembled buffer is the split file with its section replaced, and the split's error otherwise |
| SshConfig.SecondAssembly | cli/configssh.go:482-490 | Splitting and assembling again with the same options and hosts changes no byte if no value holds a marker, and is refused otherwise |
| SshConfig.MarkerInHeaderExample | cli/configssh.go:728-732 | With a header equal to the start marker the assembled file is refused |
| SshConfig.AnyTwoAssemblies | cli/configssh.go:359-372 | Assembling leaves nothing behind: other options and hosts are put into the same text around the section as on the original file |
| SshReadBack.SectionReadBackIff | cli/configssh.go:678-711 | For all hosts: options with a line break or an over-long line are not read back, others are read before the host blocks; with host blocks free of option lines, a section parses to exactly its options if and only if they are storable |
| SshReadBack.NextRunReadsOptionsIff | cli/configssh.go:306-315 | The same for the file that a run wrote, as the next run splits and reads it |
| SshReadBack.FittingHostsAreQuiet | cli/configssh.go:469-478 | Host blocks without line breaks and over-long lines hold no option line |
| SshReadBack.ReadsOrPanics | cli/configssh.go:678-711 | One-line options and hosts are read back, but for trailing carriage returns, if every line fits, and otherwise the parser panics |
| SshReadBack.CarriageReturnExample | cli/configssh.go:664-666 | A header command that ends in a carriage return comes back without it |
| HostOptions.BuildBlock | cli/configssh.go:440-467 | A host's options are what is kept of the user's, then the deployment's, then the standard options, and an error exactly if one does not parse |
| HostOptions.KeptIsKeep | cli/configssh.go:64-95 | Adding options one by one keeps exactly those whose key no earlier one removed |
| HostOptions.OrderFreeAgrees | cli/configssh.go:455-461 | If at most one deployment option can be added and no other takes its key out, every order keeps the same |
| HostOptions.NotOrderFree | cli/configssh.go:455-461 | Otherwise two orders keep different options |
| HostOptions.MapOrderExample | cli/configssh.go:455-461 | Two deployment options are written in the order the map gives them |
| HostBlocks.BuildHosts | cli/configssh.go:401-480 | One block per host, each with the deployment's options in an order of its own |
| HostBlocks.RepeatableAgrees | cli/configssh.go:455-461 | If the order cannot show, the hosts are the same in all orders |
| HostBlocks.SomeOrdersDiffer | cli/configssh.go:455-461 | If it can, two orders give different host lines |
| StandardOptions.WriteRootFlags | cli/configssh.go:419-425 | All headers and the header command, quoted, on one line |
| StandardOptions.StandardIsValid | cli/configssh.go:406-437 | The standard options of a host always parse |
| StandardOptions.ProxyCarries | cli/configssh.go:418-437 | The proxy command carries every header, the header command, and the wait and autostart flags, each if it is set |
| SshCommand.ReadPrevious | cli/configssh.go:306-315 | The stored options of a section, none without one, the split's error, or the parser's panic |
| SshCommand.WriteChosen | cli/configssh.go:359-490 | The file with the section replaced by the chosen options and the hosts built from them, or an error if an option does not parse |
| SshCommand.NameIsWritten | cli/configssh.go:391-405 | Every host is written under its name, with the user's prefix or else the deployment's |
| SshCommand.Command | cli/configssh.go:242-490 | A run as a whole, as a function of the file, the flags, the deployment's orders and the user's answer: refused, panicked, stopped, or the new contents |
| SshCommand.StoredAfterRun | cli/configssh.go:319-357 | If the flags differ from the stored options: with the flag for the previous options or the answer "no" the stored ones are read back from the result, with "yes" those of the flags; a cancelled question leaves the file alone; flags that do not parse are refused |
| SshCommand.FlagsAreStored | cli/configssh.go:319-357 | Without stored options, or with the same ones, nothing is asked and the flags are read back from the result |
| SshCommand.RunFails | cli/configssh.go:242-315 | Before options are chosen a run fails exactly for wait without a proxy command, a malformed file, or a panic of the option parser |
| SshCommand.RunSucceeds | cli/configssh.go:319-490 | After that it fails only for options that do not parse |
| SshCommand.FreshFile | cli/configssh.go:308-315 | On a file without markers there are no stored options, and a command whose options parse is ready to write |
| SshCommand.SecondRun | cli/configssh.go:306-490 | The outcome of a second run of the same command in all cases: multiple sections for a marker in a value, a panic for a line the parser panics on, and otherwise what it would have written on the original file |
| SshCommand.NoChangeIff | cli/configssh.go:482-490 | A second run changes no byte if and only if the first one's output can be split and read and the second one's own output is the same |
| SshCommand.RerunIsStableIff | cli/configssh.go:306-490 | Second runs change no byte in any orders of the deployment's options if no value holds a marker, no line panics and the order cannot show; for one-line options, if and only if no value holds a marker, no line is over-long and the order cannot show |
| SshCommand.CommandReadsBackIff | cli/configssh.go:306-315 | The next run reads exactly this run's options if and only if they are storable and every line of the host blocks fits |
| SshCommand.ReadBackAsksNothing | cli/configssh.go:319-357 | Then the user is not asked, and no answer or flag to use the previous options changes the outcome |
| SshCommand.LongValueExample | cli/configssh.go:664-666 | A header command of 70000 bytes is written, and the second run panics |
| SshCommand.LongHeadersExample | cli/configssh.go:419-437 | Two headers of 40000 bytes are storable, but the proxy command's line is over-long and the second run panics |
| OptionList.ParseWritten | wirtualsdk/deployment.go:426-435 | Key and value come apart at the first space or '=', whatever the value holds |
| OptionList.ParseFailsIff | wirtualsdk/deployment.go:426-435 | An option does not parse if and only if it has neither a space nor '=' |
| OptionList.Options.AddOption | cli/configssh.go:75-95 | Errors, skips removed keys, appends, or marks the key as removed |
| OptionList.Options.AddOptions | cli/configssh.go:63-73 | What is added is, in order, each option with a value whose key no earlier option removed, up to the first that does not parse |
| OptionList.AddKeepsDistinctIff | cli/configssh.go:60-95 | Keys stay distinct if and only if the option adds nothing or its key is new |
| OptionList.DuplicateIsKept | cli/configssh.go:60-62 | Two options with one key are both kept |
| SortedEqual.SlicesSortedEqualIff | cli/configssh.go:108-118 | The comparison of sorted copies is equality of multisets |
| SortedEqual.EqualIff | cli/configssh.go:97-105 | Options are equal if and only if they differ at most in the order of their two lists |
| SessionProtocol.CallsArePermanent | provisionersdk/session.go:117-186 | A step adds at most one call, of a served type, never touches a delivered one, and starts an apply only when planned |
| SessionProtocol.RunKeepsInv | provisionersdk/session.go:96-186 | Every interleaving of stream, loop, server and cancels keeps the session's invariant |
| SessionProtocol.OneCallAtATime | provisionersdk/session.go:321-347 | At most one call in flight; every apply after a plan delivered with an empty error; each cancel channel closed exactly once by delivery; no session ends with a call in flight |
| SessionProtocol.TakenIsServed | provisionersdk/session.go:122-179 | In every run, a request taken between calls: a cancel is ignored, a parse or plan starts its call, an apply starts its call if and only if an earlier plan was delivered with an empty error and otherwise ends the session, any other request is answered at once |
| SessionProtocol.EndsForCause | provisionersdk/session.go:117-186 | A session ends only if the stream has ended, a request other than a cancel came during a call, an apply came without a clean plan before it, or a response could not be sent |
| SessionProtocol.ResponsesAnswerRequests | provisionersdk/session.go:117-186 | The numbered non-cancel requests of the stream are, in order, those answered, those being served or left by a failure, and the one in the reader's hand; all are answered when the session ends without an error |
| SessionProtocol.AtMostOneDropped | provisionersdk/session.go:96-115 | Between stream and loop at most the last request is lost, and only after the loop has ended with an error |
| SessionProtocol.DropExample | provisionersdk/session.go:106-111 | A run in which the reader drops a plan request |
| SessionProtocol.CallsServeRequests | provisionersdk/session.go:122-179 | The server is called once, in order, for each parse, plan and apply request that is answered or in service, and for no other |
| SessionLoop.Session.constructor | provisionersdk/session.go:117-121 | A session starts in the machine's initial state |
| SessionLoop.Session.Take | provisionersdk/session.go:122-174 | The head of the loop ignores cancels, refuses an apply before a plan and starts the call otherwise |
| SessionLoop.Session.Complete | provisionersdk/session.go:343-345 | The result first: cancel channel closed, a clean plan remembered for later applies |
| SessionLoop.Session.Interrupt | provisionersdk/session.go:329-334 | A request or a closed channel first: the cancel channel is closed and the result awaited |
| SessionLoop.Session.Drain | provisionersdk/session.go:334-342 | After a cancel the result is answered; after anything else the session ends, only once the call has completed, with its request unanswered |
| SessionLoop.Session.Respond | provisionersdk/session.go:180-183 | A response sent, or the end of the session |
| ProvisionerdProtocol.RunKeepsInv | provisionerd/provisionerd.go:235-278 | Every interleaving of the acquire loop, shutdowns and closes keeps flags, channels and the job slot consistent |
| ProvisionerdProtocol.AtMostOneMoreJob | provisionerd/provisionerd.go:252-278 | Once the shutdown or closing flag is set, at most the one acquisition the loop had gone for is finished, with a job or without |
| ProvisionerdProtocol.CommittedMayStart | provisionerd/provisionerd.go:256-261 | Whatever flags are set, a loop past its exit check may still start one job, so the bound is exact |
| ProvisionerdProtocol.OneMoreJobExample | provisionerd/provisionerd.go:253-261 | From the start: shutdown or close begins after the exit check, and one more job is started |
| ProvisionerdProtocol.LoopLeavesIff | provisionerd/provisionerd.go:252-278 | The loop leaves at its exit check exactly when a flag is set, and whenever it gets no client |
| ProvisionerdProtocol.ReturnsNilIff | provisionerd/provisionerd.go:495-502 | A Shutdown call returns nil if and only if it sees the acquire loop done before its own context ends |
| ProvisionerdProtocol.ShutdownCancelsActive | provisionerd/provisionerd.go:491-493 | In every run a Shutdown that is to cancel cancels exactly the job started last and not ended, if any, and one that is not cancels none |
| ProvisionerdProtocol.QuietAfterReturn | provisionerd/provisionerd.go:484-503 | Once Shutdown has returned nil or Close has returned, no job is active and none is ever started |
| ProvisionerdProtocol.FirstCloseStays | provisionerd/provisionerd.go:513-523 | In every continuation the first close call stays the first and its error the one that counts |
| ProvisionerdProtocol.CloseOnce | provisionerd/provisionerd.go:512-554 | Of any number of close calls the earliest is the first; the active job is failed at most once; closedCh is closed at most once; all callers return the first one's error, or that of failing the job, after both loops are gone |
| ProvisionerdProtocol.FailedIsActiveAtClose | provisionerd/provisionerd.go:513-539 | The job failed is the one active in the lock region of the first close call, if any, and it is failed by the time a close returns; a job started later is not failed |
| ProvisionerdProtocol.LateJobExample | provisionerd/provisionerd.go:505-523 | A job started after close began is running and not failed |
| ProvisionerdServer.Server.constructor | provisionerd/provisionerd.go:89-101 | The server starts in the machine's initial state |
| ProvisionerdServer.Server.AcquireExit | provisionerd/provisionerd.go:266-278 | The loop leaves exactly when closing or shutting down |
| ProvisionerdServer.Server.Shutdown | provisionerd/provisionerd.go:485-494 | The lock region sets the flag and cancels the active job if asked |
| ProvisionerdServer.Server.CloseWithError | provisionerd/provisionerd.go:513-523 | Only the first caller gets the active job to fail |
| ProvisionerdServer.Server.SettleError | provisionerd/provisionerd.go:524-539 | The first caller's own error goes before that of failing the active job |
| ProvisionerdServer.Server.FinishClose | provisionerd/provisionerd.go:541-549 | The first caller's end stores the error and closes closedCh |
| ProvisionerdServer.Server.StartJob | provisionerd/provisionerd.go:357-373 | The job slot is filled |
| ProvisionerdServer.Server.EndJob | provisionerd/provisionerd.go:374-377 | The job slot is emptied and the loop checks for its exit again |
| LifecycleProtocol.Index | agent/agent.go:675-675 | The first position of the state in the order, or -1 exactly when it is missing |
| LifecycleProtocol.RunKeepsInv | agent/agent.go:611-688 | Setters, reporters and reconnects in any interleaving keep log, acknowledgements and wake-ups consistent |
| LifecycleProtocol.ReportedInOrder | agent/agent.go:611-688 | The log strictly increases; the acknowledged states are, across reconnects, exactly the log after its first entry up to the last reported index, without gaps or repeats but for unconvertible states |
| LifecycleProtocol.LogOfRun | agent/agent.go:667-682 | For an order without duplicates the log is the created state and the successive records, by place in the order, of the states that were set: a state may skip others, one at or before the last is ignored |
| LifecycleProtocol.RunningIff | agent/agent.go:611-645 | A reporter runs exactly if a connection has started it and it has neither been stopped nor failed since |
| LifecycleProtocol.NoLostWakeup | agent/agent.go:611-688 | Without a failed update, unreported states always have a reporter at work, a buffered wake-up or a setter about to leave one |
| LifecycleProtocol.FailureIsRetriedIff | agent/agent.go:611-645 | After a failed update some run without a further state gets another state acknowledged if and only if a wake-up is buffered or a setter is about to leave one |
| LifecycleProtocol.StrandedUntilNextState | agent/agent.go:612-617 | A stranded backlog stays unreported through reconnects until another state is set |
| LifecycleProtocol.LostWakeupExample | agent/agent.go:611-645 | A run of one state, a failed update and a reconnect that ends stranded |
| LifecycleAgent.Agent.constructor | agent/agent.go:161-163 | The agent's lifecycle fields start with the created state, reported |
| LifecycleAgent.Agent.SetLifecycle | agent/agent.go:673-682 | The setter makes the machine's step: it appends exactly the states that come after the last one |
| LifecycleAgent.Agent.Wake | agent/agent.go:684-687 | The non-blocking send leaves one wake-up |
| LifecycleAgent.Agent.Read | agent/agent.go:620-637 | The read under the lock and the conversion: the next unreported state is sent, skipped, or missing, as in the machine |
| LifecycleAgent.Agent.Reported | agent/agent.go:648-660 | After a successful update the index moves by one, the slot holds the reported state, and the loop goes on exactly if it knew of more |
| MetadataProtocol.RunKeepsInv | agent/agent.go:531-606 | Collectors, the loop and its reports in any interleaving keep results, batches and the report in flight consistent |
| MetadataProtocol.ResultsAreConserved | agent/agent.go:559-606 | Every received result is in exactly one place: pending, in one batch, or overtaken before batching by a newer one of its key |
| MetadataProtocol.BatchesInCollectionOrder | agent/agent.go:376-393 | The values of a key are batched in the order they were collected |
| MetadataProtocol.OneReportInFlight | agent/agent.go:555-605 | At most one report is in flight, and its send on reportError never blocks, even after the loop has returned |
| MetadataProtocol.EnterStartsIff | agent/agent.go:376-393 | In every run a key is in flight exactly if it was entered since it was last left; entering it then leaves the collector alone, and otherwise, so after every Leave, starts one |
| MetadataProtocol.CollectorLeaves | agent/agent.go:386-392 | A collector that has sent its result or given up leaves its key |
| MetadataProtocol.SentIsReceived | agent/agent.go:531-567 | Each result that a collector sends is received, in order, or still in the channel |
| MetadataProtocol.TickReports | agent/agent.go:576-605 | A tick without a report in flight sends all that is pending in a new batch; otherwise it changes nothing |
| MetadataProtocol.OutcomesAreReported | agent/agent.go:597-604 | The loop sees of each report exactly the outcome of its call |
| MetadataProtocol.EndsForCause | agent/agent.go:559-575 | In every run the loop has ended exactly if it was stopped or has seen a report fail |
| MetadataReporter.Reporter.constructor | agent/agent.go:552-557 | The loop's variables start empty |
| MetadataReporter.Reporter.Enter | agent/agent.go:376-385 | One collector per key gets in at a time |
| MetadataReporter.Reporter.Leave | agent/agent.go:386-390 | The key is free again |
| MetadataReporter.Reporter.Receive | agent/agent.go:563-567 | The newest result of a key replaces an unsent one |
| MetadataReporter.Reporter.Report | agent/agent.go:576-596 | With something pending and no report in flight, the loop moves every pending result exactly once into the batch, whatever the order of the map; otherwise nothing changes |
| MetadataReporter.Reporter.ReportDone | agent/agent.go:568-575 | A good report clears the flag, a failed one ends the loop |
| StatsProtocol.StatsTakenInOrder | agent/stats.go:53-126 | In every run, across reconnects: values are taken in callback order, each at most once; when none is marked, the newest has been taken; the loop never sleeps on an untaken value or an ended context; the source has the interval last asked for |
| StatsProtocol.SourceHasLastInterval | agent/stats.go:69-125 | In every run, while the loop runs, the source has the interval of the last answer to the initial report or a later one |
| StatsProtocol.NothingTakenAfterEnd | agent/stats.go:92-98 | Once its context has ended a loop takes nothing more |
| StatsProtocol.NothingTakenAfterFailure | agent/stats.go:101-103 | Nor does it after a failed report |
| StatsProtocol.EndsForCause | agent/stats.go:92-104 | A loop ends only after its context or after a failed report |
| StatsReporter.Reporter.constructor | agent/stats.go:44-51 | A new reporter has nothing to report |
| StatsReporter.Reporter.Callback | agent/stats.go:53-60 | The newest value replaces an untaken one and wakes the loop |
| StatsReporter.Reporter.Start | agent/stats.go:75-80 | A new loop takes over the interval asked for |
| StatsReporter.Reporter.ContextDone | agent/stats.go:81-87 | The end of the context wakes the loop |
| StatsReporter.Reporter.StaleContextDone | agent/stats.go:81-87 | The watcher of a loop that has returned may wake the new one for nothing |
| StatsReporter.Reporter.Check | agent/stats.go:92-100 | With the lock the loop sleeps, leaves, or takes the newest value and unmarks it, as the machine does |
| StatsReporter.Reporter.Reported | agent/stats.go:119-125 | The source is given a new interval exactly when it differs |
| AppHealth.CheckTracks | agent/apphealth.go:106-132 | One check moves counter and health as one more outcome does |
| AppHealth.InitialHealthOf | agent/apphealth.go:48-56 | An app that is not disabled starts with its own health |
| AppHealth.DisabledHaveNone | agent/apphealth.go:48-56 | A disabled app has no entry |
| AppHealth.HealthOfApp | agent/apphealth.go:106-132 | In any interleaving with other apps the counter is the trailing failures up to the threshold; health is Unhealthy after more than threshold trailing failures, otherwise Healthy if any check succeeded, otherwise as it was |
| AppHealth.HealthChanged | agent/apphealth.go:170-182 | True exactly when the new map has an entry that the old one lacks or has differently |
| AppHealth.CopyHealth | agent/apphealth.go:184-191 | The copy equals the map |
| HealthReports.ServerIsCurrent | agent/apphealth.go:138-161 | In every run whose last post was accepted, between reports, the server has the last copy, and the health map if that has not changed since |
| HealthReports.FailedPostIsRepeatedIff | agent/apphealth.go:141-161 | Without a further change the server can still get the health map if and only if it has it or the map has changed since the last copy |
| HealthReports.StaleServerExample | agent/apphealth.go:149-159 | After one failed post the server keeps the old health |
| AppHealthReporter.Reporter.constructor | agent/apphealth.go:48-65 | Health and its copy start with the apps that are not disabled |
| AppHealthReporter.Reporter.Checked | agent/apphealth.go:106-132 | The lock regions of a check make the specified step and leave the last copy alone |
| AppHealthReporter.Reporter.Compare | agent/apphealth.go:142-147 | As entries never disappear, the comparison is true exactly when the map differs from the last copy |
| AppHealthReporter.Reporter.Copy | agent/apphealth.go:149-154 | What is posted is the health at the moment of the copy |
| AppHealthReporter.Reporter.Posted | agent/apphealth.go:152-160 | An accepted post is what the server has; a failed one changes nothing |
| ParameterResolver.FindTemplate | cli/parameterresolver.go:274-281 | The first template parameter of that name, and none only if there is none |
| ParameterResolver.FindParam | cli/parameterresolver.go:283-290 | The first parameter of that name, and none only if there is none |
| ParameterResolver.Upsert | cli/parameterresolver.go:103-113 | Overwriting in place or appending keeps names distinct and overrides one entry of the map |
| ParameterResolver.ResolveWithParametersMapFile | cli/parameterresolver.go:100-116 | The file overrides the list, in any order of its entries |
| ParameterResolver.ResolveWithCommandLineOrEnv | cli/parameterresolver.go:118-143 | Ephemeral flags override rich flags override the list |
| ParameterResolver.ResolveWithSourceBuildParameters | cli/parameterresolver.go:181-203 | The lasting parameters of the source workspace override the list |
| ParameterResolver.ResolveWithLastBuildParameters | cli/parameterresolver.go:145-179 | The last build's values that are lasting, mutable and still offered override the list, unless parameters are to be asked for |
| ParameterResolver.Stage | cli/parameterresolver.go:87-90 | The staged list has no name twice and is the map file, rich flags, ephemeral flags, source, last build, each overriding those before |
| ParameterResolver.FlagSurvivesIff | cli/parameterresolver.go:87-90 | A value from the command line is staged if and only if none is taken over for its parameter from the source workspace or the last build, or the same one is |
| ParameterResolver.FlagIsOverriddenExample | cli/parameterresolver.go:145-179 | A flag for a mutable parameter loses to the last build's value |
| ParameterResolver.LastBuildIsStaged | cli/parameterresolver.go:145-179 | The last build's value is staged, over all others, exactly if parameters are not to be asked for and its parameter is lasting, mutable and still offers it |
| ParameterResolver.SourceIsStaged | cli/parameterresolver.go:181-203 | A source value overrides flags and file exactly if its parameter is not ephemeral |
| ParameterResolver.FlagsAndFile | cli/parameterresolver.go:100-143 | Without builds the value is the ephemeral flag's, else the rich flag's, else the file's |
| ParameterResolver.RefusedIff | cli/parameterresolver.go:205-221 | Constraints are broken exactly by a staged parameter that is not in the template, is ephemeral without leave, or is immutable in anything but a creation |
| ParameterResolver.VerifyConstraints | cli/parameterresolver.go:205-221 | It passes exactly when no staged parameter is unknown, ephemeral without leave, or immutable after creation, and names one that is |
| ParameterResolver.ResolveWithInput | cli/parameterresolver.go:223-255 | What was staged is kept; everything that has to be asked for is there; everything added is an answer; it fails only with the error of a prompt it had to make |
| ParameterResolver.Resolve | cli/parameterresolver.go:83-98 | On success names are distinct and are exactly the staged and the asked-for ones, each with its staged value or an answer; a constraint error exactly when some staged parameter breaks one, which it names; otherwise the error of a prompt that had to be made |
| ParameterResolver.CreateIsComplete | cli/parameterresolver.go:205-242 | Every resolved parameter is in the template, and creation resolves all lasting and all required parameters |
| ParameterResolver.NeededIsResolved | cli/parameterresolver.go:223-255 | After a successful update every required mutable, every new immutable parameter and every one whose old value is gone is resolved; with the prompt flags every lasting mutable or every ephemeral one is; and what is resolved without being staged is the answer for a parameter needed for one of these reasons |
| ParameterResolver.StartAddsNothing | cli/parameterresolver.go:223-255 | A start or restart without prompt flags resolves exactly what was staged |
| ParameterResolver.ImmutableOnlyByPrompt | cli/parameterresolver.go:216-242 | After creation an immutable parameter enters only by being asked for, and only when new, when its old value is no longer offered, or when ephemeral and asked for |
| Ping.ShiftCentre | cli/ping.go:60-63 | How the squared deviations change when the centre moves |
| Ping.LeastIsMinimum | cli/ping.go:52-54 | The kept minimum is the minimum |
| Ping.MaxIsMaximumIff | cli/ping.go:55-57 | The kept maximum is the maximum if and only if nothing after some maximal latency rises above the minimum so far |
| Ping.MaxExample | cli/ping.go:55-57 | After 1, 3 and 2 seconds the kept maximum is 2 |
| Ping.PingSummary.constructor | cli/ping.go:33-44 | The empty summary |
| Ping.PingSummary.AddResult | cli/ping.go:46-64 | After any sequence of results: counts, sum, mean, squared deviations and extremes are those of the answered pings |
| Ping.MomentsStep | cli/ping.go:60-63 | The running moments of a sample, updated, are those of the sample with one more latency |
| Ping.PingSummary.UpdateExtremes | cli/ping.go:52-57 | The kept extremes of a sample become those of the sample with one more latency |
| Ping.PingSummary.UpdateMoments | cli/ping.go:60-63 | If the fields hold the mean and squared deviations of a sample, they hold those of the sample with one more latency afterwards |
| Ping.PingSummary.Finish | cli/ping.go:67-73 | The average is the mean of the answered pings, and the variance their sample variance, each only if there are enough |

## Left out

- Clocks, fairness and randomness: nothing is claimed about when ticks come, that steps are eventually taken, or that a
  random word is eventually accepted; the theorems are about every order of events.
- Network, files, terminal, logging, tracing, metrics and error texts. Answers of prompts, entropy, server results and
  outcomes of checks are parameters or events.
- What closers, provisioner calls and jobs do inside; `runner.Runner`, the connector, `connect`'s redialling and
  `acquireGraceful` are only "may go on" and "a job starts, may be failed or cancelled, ends".
- Steps that no field of the program records, such as a closer's `Close` being called or a server call returning, are
  events of the machines without a method in the classes.
- Creation, deletion and cleaning of session directories, and the README file added to a parse result.
- CloserStackProtocol.EveryItemClosedOnce: does not say that every stacked item's Close has been called on return, because that is false after a tick; `ShutdownLoop.ClosedOnReturnIff` is the exact statement.
- UnbiasedModulo.StringCharset: charsets of 2^31 runes or more, whose length the code truncates to 32 bits, are not covered.
- StringUniform.StringIsUniform: counts index sequences; a charset that repeats a rune makes the strings of that rune more frequent, as the code does.
- Collecting metadata: the manifest, intervals and timeouts that decide when a collector starts or gives up.
- The strings of the ssh config are sequences of characters where the code has bytes. Lower-casing of keys is a parameter.
- SshConfig.ConfigSsh: the host blocks are given; `SshCommand.Command` builds them. The list of hosts is given, sorted; escaping of paths and Go's quoting of strings are parameters.
- The rest of `config-ssh`: the last confirmation, dry run, diff, the write of the file, messages, and which option did not parse.
- The setters of the parameter resolver, the text of its errors with suggestions, and the warning about immutable parameters.
- Ping.PingSummary.AddResult: latencies are exact reals; floating-point rounding, and the rounding of Min and Max to nanoseconds before they are compared, are not modelled.
- The newline limiter of `cli/help.go`, port ranges, durations, archives and paths: easier than what is here.
