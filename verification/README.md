# Proofs about the RAgents scripts

A Dafny 4.11 model of the stateful parts of `scripts/` and of the question forms of the `ragents.ask` plugin, with proofs of what
they promise. `dafny verify dfyconfig.toml` checks all of it.

| module | models |
|---|---|
| `Journal`, `Utf8` | the incremental journal reader, the decoding of its chunks, and the usage added up over events |
| `Progress`, `Growth`, `Follow` | the steps a run view shows for one input, how they change while the run goes on, and the loop that prints each step once |
| `RunWatch` | the wake-up between the event callbacks of a run and the one follower that waits for them |
| `ChatStream` | one chat subscription of an editor session, its event handlers cut at their awaits |
| `EditorAgent` | prompts, cancels and closes of an editor connection, all interleaved |
| `HostPackage`, `HostFetches` | processes that stage a host package and rename it into one shared folder; one fetch per folder inside a process |
| `Fences`, `Guide`, `Prompts` | the fence printer and the fence scanner, the guide's section parser, the message made of a prompt's blocks |
| `Contracts` | the linearised bases of a contract interface, and a declaration cut out of generated text |
| `Versions` | the order of versions and the next one to publish |
| `Colors`, `Palettes` | gamut fitting, contrast, the search for a lightness, and the tokens of a palette |
| `Questions` | the form for some questions and the answers read from it |
| `Lines`, `Numbers`, `Unique`, `Wrappers` | lines of text, decimal numbers, lists without repetition, optional values and errors |

Code that changes state step by step is a class or a method with a loop; its contract equates the new state with a pure function,
and the theorems are about that function over whole runs. Concurrency is a state machine whose steps are the pieces of code between
two awaits or two file system operations. A run is a sequence of states joined by such steps, in any order, of any length. What the
code cannot see, such as npm, the file system, the server, clocks and the editor, chooses its steps freely.

Seven properties turned out to hold under a condition only. The code is kept as it is, the condition is proved to be exact, and a
lemma gives an input or a run that breaks it:

- Reading a journal in pieces gives the text of the whole file if and only if every size seen lies between two characters
  (`Journal.CutInsideCharacter`).
- Two followers of one run that stop at different ended views print the same lines if and only if no action appended between these
  views is asked in the turn. One dated in the millisecond in which the turn ended is (`Follow.QuestionInLastMillisecond`); one dated
  later is not (`Growth.LaterDatesAreNotLate`).
- With `--json` the output of a followed turn is that of its final view if and only if no call was polled running that has ended since
  (`Follow.JsonDependsOnPolls`). Without `--json` its lines always are.
- A code block closes on its last line if and only if its language does not begin with a backtick (`Fences.BacktickLanguageStaysOpen`).
- The answers of a form are acceptable if and only if no list in it repeats a choice; the form's schema does not rule that out
  (`Questions.RepeatedChoiceIsSent`).
- A prompt aborted before it was submitted returns "cancelled" if and only if its stream had not failed by the time of the abort
  (`EditorAgent.FailedBeforeAbort`).
- Whenever a cancel decides by its session, at the recheck, at a poll that finds the actor running and at the interrupt, the active
  prompt is its own if and only if that one has not returned by then (`EditorAgent.CancelReachesNextPrompt`).

A host package of another version than its folder's name is put in place before its version is compared
(`HostPackage.WrongVersionIsPublished`). From then on no caller of that version returns (`HostPackage.ComparisonOfFolder`). A caller
that begins when a host is in place, and does not crash, returns if and only if that host has the right version
(`HostPackage.OutcomeOfFolder`).

## Model

| member | source | states |
|---|---|---|
| Utf8.CutDecode | scripts/agent/journal.ts:72 | decoding two pieces of a byte string separately gives the decoding of the whole exactly when the cut is a character boundary, and a longer text otherwise |
| Utf8.DecodeInvertsEncode | scripts/agent/journal.ts:72 | decoding gives back every text that was encoded by section 3 of RFC 3629, characters of all four lengths included |
| Utf8.EncodedIsDecoded | scripts/agent/journal.ts:72 | whatever bytes follow, encoded text is decoded as it was, and its end is a character boundary |
| Utf8.UnitIsMaximal | scripts/agent/journal.ts:72 | the decoder takes an encoded character where one stands, and otherwise replaces the longest part that begins one, or a single byte |
| Journal.JournalReader.Next | scripts/agent/journal.ts:61-75 | one call returns the events of the lines completed by the new bytes and keeps the rest; the position advances even when a line is unreadable |
| Journal.ReadJournal | scripts/agent/journal.ts:78-82 | a new reader returns the events of all complete lines of the file, or says that it is missing |
| Journal.OffsetOfRun | scripts/agent/journal.ts:61-71 | after any calls on an append-only file the reader stands at the largest size seen |
| Journal.IncrementalEqualsText | scripts/agent/journal.ts:61-75 | for any bytes and any schedule the calls together return exactly the events of the complete lines decoded so far, fail exactly when one is unreadable, and leave the newline-free tail |
| Journal.TextAgrees | scripts/agent/journal.ts:61-75 | the text decoded in pieces is that of the whole file if and only if every size seen is a character boundary |
| Journal.IncrementalEqualsWhole | scripts/agent/journal.ts:61-82 | on boundaries, all calls together return what one read of the whole file returns, errors included |
| Journal.CutInsideCharacter | scripts/agent/journal.ts:72 | a size inside a two-byte character leaves two replacement characters where the file has one character |
| Journal.WrittenLinesAreRead | scripts/agent/journal.ts:61-75 | a reader at rest whose file grows by lines in UTF-8, each with its newline, returns exactly the events of these lines and is at rest again |
| Journal.WrittenLineIsRead | scripts/agent/journal.ts:61-75 | for one line these are what the parser makes of it, and nothing if it is blank |
| Journal.WrittenFileIsRead | scripts/agent/journal.ts:78-82 | the same for a whole file |
| Journal.EventsInOrder | scripts/agent/journal.ts:74 | the events of two pieces of lines are those of the first followed by those of the second |
| Journal.FailsOnUnreadable | scripts/agent/journal.ts:74 | reading lines fails if and only if one of them is not blank and cannot be parsed |
| Journal.RecordIsTranslated | scripts/agent/journal.ts:35-45 | each event of a record, in order, with the actor of the record, its own time or that of the record, and the names in use today |
| Journal.UsageByActor | scripts/agent/journal.ts:84-98 | the map has exactly the actors of counted events, each with the sum over its events |
| Journal.TotalAppend | scripts/agent/journal.ts:84-98 | the usage of two journals one after the other is the sum of their usages |
| Journal.TotalsAreSums | scripts/agent/journal.ts:84-98 | each total of an actor is the sum of the numbers under its own key over the events that count |
| Journal.UsageOfPieces | scripts/agent/journal.ts:84-98 | usage added up piece by piece is the usage of the whole journal |
| Journal.UsageConserved | scripts/agent/journal.ts:84-98 | the totals of the actors add up to the total of all counted events |
| Progress.SortIsStable | scripts/agent/agent-cli.ts:364-369 | sorting by time keeps all entries, orders them, and keeps the order of equal times |
| Growth.ProgressGrows | scripts/agent/agent-cli.ts:354-372 | every step that a view of a running turn shows is in every later view, unchanged but for a running call |
| Growth.StepsAreThose | scripts/agent/agent-cli.ts:317-370 | the steps of a turn from an input on are those of its calls, its questions and its outputs, each with its key, time, line and data, and no others |
| Growth.ShownIsThat | scripts/agent/agent-cli.ts:354-372 | which input is followed, and what a view shows for it in each stage: nothing yet, an interruption, the steps, and how the turn ended |
| Growth.FindsFirstTurn | scripts/agent/agent-cli.ts:361-362 | the turn that is shown is the first one with the id |
| Growth.ShownInOrder | scripts/agent/agent-cli.ts:364-371 | what a view shows is in the order of time; the end of the turn is there exactly if it has ended, and comes last |
| Growth.TiesInOrder | scripts/agent/agent-cli.ts:364-369 | steps of the same time are shown calls first, then questions, then outputs, each in the order of the view |
| Growth.CallsInOrder | scripts/agent/agent-cli.ts:317-326 | calls give their steps in their order, each beginning before its end |
| Growth.OutputsInOrder | scripts/agent/agent-cli.ts:367-368 | outputs give their steps in their order |
| Growth.EndedProgressStays | scripts/agent/agent-cli.ts:339-372 | a later view shows an ended turn exactly as before if and only if no action appended since is asked in it |
| Growth.LaterDatesAreNotLate | scripts/agent/agent-cli.ts:339-343 | actions dated after the end of the turn are not asked in it |
| Growth.ProgressKeysDistinct | scripts/agent/agent-cli.ts:317-372 | no two steps of one view have the same key |
| Growth.ProgressIsLawful | scripts/agent/agent-cli.ts:354-372 | `progressOf` gives steps keys of their own and never takes a step back while a run grows |
| Follow.WriteNew | scripts/agent/agent-cli.ts:446-450 | the inner loop writes the new steps in order and remembers exactly their keys |
| Follow.FollowPoll | scripts/agent/agent-cli.ts:445-454 | one poll prints its new steps and ends the loop exactly on an outcome or an error |
| Follow.FollowSent | scripts/agent/agent-cli.ts:440-456 | the loop polls until an outcome or an error, and what it wrote is what the polled views demand |
| Follow.PollPrintsInOrder | scripts/agent/agent-cli.ts:446-450 | one poll adds exactly those of its steps whose keys were not printed before, in its order |
| Follow.FirstPollIsPrinted | scripts/agent/agent-cli.ts:446-450 | a follower that ends on its first poll prints what that poll shows, step by step |
| Follow.PollPrintsByTime | scripts/agent/agent-cli.ts:443-454 | within one poll no step comes before an earlier one, and the poll that ends the loop prints the end of the turn last |
| Follow.JsonIsData | scripts/agent/agent-cli.ts:448 | with --json every step prints its data |
| Follow.TextIsLines | scripts/agent/agent-cli.ts:449 | without --json exactly the steps that have a line print it, in order |
| Follow.PrintedIsShown | scripts/agent/agent-cli.ts:443-450 | after any polls every step of the last view is printed, each key once |
| Follow.LinesAreThoseOfFinalView | scripts/agent/agent-cli.ts:440-456 | whichever views were polled, the lines printed are, as a multiset, those of the final view |
| Follow.ScheduleDoesNotMatter | scripts/agent/agent-cli.ts:440-456 | two followers that poll one run at any moments and stop at any ended views end alike and print the same lines, if and only if no action appended between these views is asked in the turn |
| Follow.QuestionInLastMillisecond | scripts/agent/agent-cli.ts:339-343 | a question dated in the millisecond of the end is printed by the later follower only |
| Follow.JsonIsThatOfFinalView | scripts/agent/agent-cli.ts:446-449 | the JSON output is that of the final view if and only if no call polled while running has ended since |
| Follow.FollowedTurnIsPrinted | scripts/agent/agent-cli.ts:354-456 | both statements for the steps of any input that was sent |
| Follow.JsonDependsOnPolls | scripts/agent/agent-cli.ts:318-324 | a call polled once while running makes the JSON output differ from the final view |
| Follow.EndedRunIsFollowed | scripts/agent/agent-cli.ts:451-454 | the polls of a loop that ended with an outcome meet the premises of these theorems |
| Follow.BreaksForGood | scripts/agent/agent-cli.ts:328-329 | a question that cannot be read breaks every later poll as well |
| RunWatch.RunWatcher.Signal | scripts/agent/agent-cli.ts:385-389 | the parked resolver is called at most once |
| RunWatch.RunWatcher.OnEvent | scripts/agent/agent-cli.ts:394-397 | an event marks the watch dirty and wakes the follower |
| RunWatch.RunWatcher.OnFailure | scripts/agent/agent-cli.ts:390-393 | a failure is kept if it is the first one, and wakes the follower |
| RunWatch.RunWatcher.Changed | scripts/agent/agent-cli.ts:402-406 | one pass parks, throws the failure, or clears the dirty flag and returns |
| RunWatch.NoLostWakeUp | scripts/agent/agent-cli.ts:381-412 | in every interleaving a parked follower has no event or failure to see, and its latest view was requested after the last event delivered |
| RunWatch.CheckIsExact | scripts/agent/agent-cli.ts:402-406 | a check throws the first failure, goes on if something was reported since the last one that went on, and parks otherwise |
| RunWatch.SentOnce | scripts/agent/agent-cli.ts:425-436 | the input is sent at most once |
| RunWatch.EndsWithTurn | scripts/agent/agent-cli.ts:425-456 | the first view is followed by sending the input, and a later one ends the follower exactly if it shows the end of the turn |
| RunWatch.OthersAreFree | scripts/agent/agent-cli.ts:381-412 | events and failures can be reported at any time, every call of the follower can fail, and a view can reflect any event since its request |
| RunWatch.ParkedFollowerWakes | scripts/agent/agent-cli.ts:385-397 | the next event or failure wakes a parked follower |
| RunWatch.FailureReachesFollower | scripts/agent/agent-cli.ts:390-406 | the first failure is kept and is what the next check throws; after it the follower never parks |
| RunWatch.FollowerIsNeverStuck | scripts/agent/agent-cli.ts:425-456 | a follower that is neither over nor parked can go on |
| RunWatch.EndsAfterFailure | scripts/agent/agent-cli.ts:381-456 | after a failure the follower takes at most six more steps |
| ChatStream.ChatSubscription.constructor | scripts/acp/chat-stream.ts:36-57 | a new subscription replays, and is cancelled at once when its signal is already aborted |
| ChatStream.ChatSubscription.MarkSubmitted | scripts/acp/chat-stream.ts:61 | submitting sets its flag and nothing else |
| ChatStream.ChatSubscription.AbortSignal | scripts/acp/chat-stream.ts:47-55 | an abort finishes the stream as cancelled only while it is neither submitted nor finished |
| ChatStream.ChatSubscription.Dispose | scripts/acp/chat-stream.ts:112-117 | closing takes the stream off the channel and the signal |
| ChatStream.ChatSubscription.Receive | scripts/acp/chat-stream.ts:44-45 | an event is queued behind the others |
| ChatStream.ChatSubscription.FailWith | scripts/acp/chat-stream.ts:104-110 | a failure finishes the stream and rejects what is not settled |
| ChatStream.ChatSubscription.Handle | scripts/acp/chat-stream.ts:63-74 | the guards at the start of the handler |
| ChatStream.ChatSubscription.StartWork | scripts/acp/chat-stream.ts:75-88 | repeated results are dropped, the others remembered, and the user event noted |
| ChatStream.ChatSubscription.AfterAttachment | scripts/acp/chat-stream.ts:83-85 | after the attachments of a replayed user event its updates are forwarded |
| ChatStream.ChatSubscription.SendNext | scripts/acp/chat-stream.ts:85-90 | one update after the other is sent, then the question is put or the handler goes on |
| ChatStream.ChatSubscription.AfterElicitation | scripts/acp/chat-stream.ts:89-91 | an answered question is remembered as one completion to skip |
| ChatStream.ChatSubscription.Complete | scripts/acp/chat-stream.ts:92-95 | after forwarding: a failed startup, a completion to skip, or a view to request |
| ChatStream.ChatSubscription.AfterView | scripts/acp/chat-stream.ts:96-101 | the latest primary turn decides how the stream ends |
| ChatStream.StepKeepsInv | scripts/acp/chat-stream.ts:36-110 | `finished` holds exactly when `done` is settled, and the other links between the fields, after every step |
| ChatStream.OthersOnlySettle | scripts/acp/chat-stream.ts:63-110 | events and failures never submit, abort or close a stream |
| ChatStream.DoneSettlesOnce | scripts/acp/chat-stream.ts:47-57 | in every run `done` and `ready` settle at most once, and `finished` holds exactly while `done` is settled |
| ChatStream.HandlerWasAdmitted | scripts/acp/chat-stream.ts:63-74 | a running handler was begun on a stream that was not finished and, when live, submitted and outside the replay |
| ChatStream.ForwardsOnlyAdmitted | scripts/acp/chat-stream.ts:63-88 | what is forwarded is the next update, in order, of an event that was begun in time |
| ChatStream.NothingAfterFinish | scripts/acp/chat-stream.ts:64 | an event begun after the end does nothing |
| ChatStream.EndTurnIsEarned | scripts/acp/chat-stream.ts:93-101 | a live "end_turn" comes from a view with a completed primary turn, after a user event, with no abort and nothing to skip |
| ChatStream.EndIsExact | scripts/acp/chat-stream.ts:46-110 | while a stream is open, its next step ends it, as "end_turn", as "cancelled" or with an exception, exactly if that step is one of those that do so |
| ChatStream.EndGoesBack | scripts/acp/chat-stream.ts:46-110 | every end goes back to such a step |
| ChatStream.ReadyIsExact | scripts/acp/chat-stream.ts:46-110 | the same for `ready` |
| ChatStream.FlagsAreExact | scripts/acp/chat-stream.ts:47-61 | the flags say whether the stream was submitted, aborted and closed |
| ChatStream.EventsInOrder | scripts/acp/chat-stream.ts:44-46 | events are handled in the order in which they arrived, and none is lost |
| ChatStream.ReplayingIsExact | scripts/acp/chat-stream.ts:65-72 | a stream replays until the last event that began or ended a replay was its end |
| ChatStream.HandlerStarts | scripts/acp/chat-stream.ts:63-88 | the handler of an event does something exactly if the stream is open, replays or is submitted and outside the replay, and the event is no result that was the last thing shown of its tool |
| ChatStream.HandlerForwardsAll | scripts/acp/chat-stream.ts:85-91 | a handler that ends without a failure has forwarded all updates of its event in order, and none of a question that is put to the user |
| ChatStream.FailedHandlerIsOver | scripts/acp/chat-stream.ts:45 | a handler that fails is over and leaves everything but the promises as it is |
| ChatStream.HandlerGoesOn | scripts/acp/chat-stream.ts:84-96 | after the last update a question is put exactly if that is wanted, and a view requested exactly for the end of a live turn with a user event before it and no completion to skip |
| ChatStream.UserWasSeen | scripts/acp/chat-stream.ts:81-82 | `userSeen` goes back to a user event that was admitted |
| ChatStream.UserSeenIsExact | scripts/acp/chat-stream.ts:81-83 | and conversely `userSeen` holds from then on |
| ChatStream.OthersAreFree | scripts/acp/chat-stream.ts:36-117 | an owner can abort, submit and close at any time, and whatever a handler awaits can come or fail |
| ChatStream.ElicitationsBalance | scripts/acp/chat-stream.ts:89-94 | answered questions equal skipped completions plus those still to skip, and that number is never negative |
| ChatStream.ConsecutiveResultsDiffer | scripts/acp/chat-stream.ts:75-80 | two results of one tool that are forwarded one after the other differ, unless the tool was shown again between them |
| EditorAgent.EditorConnection.Prompt | scripts/acp/agent.ts:161-172 | a prompt is refused for an unknown or busy session, and entered otherwise |
| EditorAgent.EditorConnection.AfterReady | scripts/acp/agent.ts:174-182 | after the replay an aborted prompt returns, and any other one is submitted and then sent, unless composing its message throws in between |
| EditorAgent.EditorConnection.AfterSend | scripts/acp/agent.ts:182-185 | the host's reply settles `sent`, and a failure ends the prompt |
| EditorAgent.EditorConnection.AfterDone | scripts/acp/agent.ts:184-186 | the end of the stream is what the prompt returns |
| EditorAgent.EditorConnection.Leave | scripts/acp/agent.ts:185-186 | leaving settles both promises, aborts and closes the stream and removes the entry |
| EditorAgent.EditorConnection.CancelLook | scripts/acp/agent.ts:193-197 | a cancel aborts the active prompt of its session and waits for `sent` |
| EditorAgent.EditorConnection.AfterSent | scripts/acp/agent.ts:197-198 | a cancel whose prompt was sent goes on to poll if its session has an active prompt |
| EditorAgent.EditorConnection.PollOnce | scripts/acp/agent.ts:200-209 | one round interrupts, gives up, fails at the deadline, or waits on |
| EditorAgent.StepKeepsInv | scripts/acp/agent.ts:161-210 | after every step the map holds exactly the prompts that have not returned, and each prompt, cancel and close is where its promises let it be |
| EditorAgent.OneActivePrompt | scripts/acp/agent.ts:165-172 | in every interleaving a session has at most one active prompt |
| EditorAgent.PromptIsTakenUnlessBusy | scripts/acp/agent.ts:164-172 | a prompt is taken exactly if its session is known and has no prompt that has yet to return |
| EditorAgent.PromptReturnsEndOfStream | scripts/acp/agent.ts:174-186 | once the host has taken a prompt, it returns the reason with which its stream stopped if and only if it stopped with it, and an exception if and only if it failed; before that "cancelled" or an exception |
| EditorAgent.StreamIsChatRun | scripts/acp/agent.ts:166-186 | whatever the connection does, the stream of each prompt is a run of a live chat stream, so that everything about those holds of it |
| EditorAgent.EndTurnAnswerIsEarned | scripts/acp/agent.ts:184 | a prompt answers "end_turn" only after a view that shows its turn completed, after a user event and without an abort |
| EditorAgent.PromptEndsItsTurn | scripts/acp/agent.ts:173-186 | a run in which a prompt is sent, completed and answered with "end_turn" |
| EditorAgent.PromptsMoveOn | scripts/acp/agent.ts:173-186 | what is decided about a prompt stays decided |
| EditorAgent.PromptEndsAfterThreeSteps | scripts/acp/agent.ts:173-186 | whatever else happens in between, a prompt takes at most three steps of its own, and none after it has returned |
| EditorAgent.AbortedBeforeSubmit | scripts/acp/agent.ts:174-176 | a prompt aborted before it was submitted never calls `chat.send`, and what it returns was decided by then: "cancelled" unless its stream had failed |
| EditorAgent.FailedBeforeAbort | scripts/acp/agent.ts:174-176 | a run in which the stream breaks before the abort, so that the prompt throws |
| EditorAgent.ReturnedPromptIsGone | scripts/acp/agent.ts:184-186 | a returned prompt has settled `sent` and `finished` and left the map for good; an "end_turn" is that of its stream |
| EditorAgent.EntriesAreRemovedByTheirOwners | scripts/acp/agent.ts:186 | an entry leaves the map only when its own prompt returns |
| EditorAgent.CancelWaitsOnlyForHost | scripts/acp/agent.ts:196-197 | a waiting cancel can go on, or its prompt's next step lets it go on, or the host's reply to `chat.send` does |
| EditorAgent.ClosesAreCovered | scripts/acp/agent.ts:275-277 | every prompt a close waits for is aborted, or a cancel of that close is about to abort it |
| EditorAgent.CancelsOfCloseWaitOnlyForHost | scripts/acp/agent.ts:275-276 | a close that waits for its cancels can go on, or some have not ended; each of those can go on by itself, or its prompt can, or `chat.send` is under way |
| EditorAgent.CloseWaitsOnlyForHost | scripts/acp/agent.ts:275-277 | a close that waits for prompts waits for none that is still to be submitted: each has finished, can return at once, or waits for the host |
| EditorAgent.CloseIsNeverStuck | scripts/acp/agent.ts:275-277 | in every run a close goes on as soon as one of its cancels has failed, and otherwise nothing holds it up but a cancel that has not ended or a prompt that has not finished |
| EditorAgent.CloseCanBeCalled | scripts/acp/agent.ts:274-275 | whatever the state, the agent can be closed |
| EditorAgent.CloseHasWaited | scripts/acp/agent.ts:275-277 | a close that succeeds has waited until every prompt that was active when it was called has finished and its cancels have ended without an exception; it fails only with a cancel |
| EditorAgent.InterruptsOwnUnlessReturned | scripts/acp/agent.ts:197-204 | in every run, at the recheck after `sent`, at each poll that finds the actor running and at the interrupt, the active prompt is the one the cancel was sent for if and only if that one has not returned; any other was called later |
| EditorAgent.CancelReachesNextPrompt | scripts/acp/agent.ts:198-204 | a run in which a cancel interrupts while its own prompt has returned and the host has taken the next one |
| EditorAgent.CancelEndIsExact | scripts/acp/agent.ts:189-210 | a cancel that has not ended ends with its next step, by returning, by failing or by interrupting, exactly if that step does so |
| EditorAgent.OthersAreFree | scripts/acp/agent.ts:161-210 | the editor can call at any time, and the host replies with any result |
| HostPackage.HostStorage.LookUp | scripts/package/host-package.ts:125-126 | a folder that is a host root is taken without an installation |
| HostPackage.HostStorage.InstallWrites | scripts/package/host-package.ts:93 | npm leaves whatever it likes in the staging folder of its process |
| HostPackage.HostStorage.InstallExits | scripts/package/host-package.ts:93-96 | an installation counts only when npm succeeds and leaves a host root |
| HostPackage.HostStorage.DiscardStaging | scripts/package/host-package.ts:145-148 | after a failed installation the staging folder is removed, and the server's package is next if one is offered |
| HostPackage.HostStorage.DownloadPackage | scripts/package/host-package.ts:149-159 | a verified download is staged as a tarball |
| HostPackage.HostStorage.DiscardTarball | scripts/package/host-package.ts:160-164 | the tarball is removed whether its installation succeeded or not |
| HostPackage.HostStorage.RenameStaging | scripts/package/host-package.ts:133 | the staged folder is moved into place only where no folder is |
| HostPackage.HostStorage.RecheckFolder | scripts/package/host-package.ts:133-135 | after a failed rename a host root in place is adopted |
| HostPackage.HostStorage.CleanUp | scripts/package/host-package.ts:136-138 | what was staged is removed before the call goes on or throws |
| HostPackage.HostStorage.MatchVersion | scripts/package/host-package.ts:171-176 | the call returns exactly if the host in place has the version asked for |
| HostPackage.StepKeepsInv | scripts/package/host-package.ts:124-169 | after every step, crashes included, each process and its staging folder fit together |
| HostPackage.StepKeepsFolders | scripts/package/host-package.ts:133-135 | a step keeps every shared folder and adds only complete ones |
| HostPackage.FoldersOnlyAppear | scripts/package/host-package.ts:124-140 | between any two moments shared folders are kept as they are, and new ones are complete hosts |
| HostPackage.AbsentOrComplete | scripts/package/host-package.ts:124-140 | for any number of processes, a shared folder is absent or a complete host at every step |
| HostPackage.ReturnedHostIsRequested | scripts/package/host-package.ts:139-140 | every caller that returns got exactly the version it asked for, from a folder that stays |
| HostPackage.ExitsClean | scripts/package/host-package.ts:131-138 | every exit but a crash removes the process's staging folder, and no process touches that of another |
| HostPackage.LoserAdoptsWinner | scripts/package/host-package.ts:133-140 | in every run a process whose rename comes too late never fails on it, cleans up, and returns the folder of the first one exactly if that holds the version asked for |
| HostPackage.RenameFailsWithoutWinner | scripts/package/host-package.ts:133-135 | a call fails on its rename only if no host was in place when it looked again |
| HostPackage.OutcomeIsExplained | scripts/package/host-package.ts:124-169 | in every run the stage of a call fits what it has tried: a failure without a download means that npm failed and none is offered, a failed download or server installation that those failed, and after an installation that went well only the rename or the comparison can fail |
| HostPackage.ServerPackageIsInstalled | scripts/package/host-package.ts:142-169 | a run in which npm fails and the call returns the host of the server's package |
| HostPackage.NpmPackageIsInstalled | scripts/package/host-package.ts:124-140 | a run in which npm installs the host: it is put in place, and returned if its version is the one asked for |
| HostPackage.OutcomeOfFolder | scripts/package/host-package.ts:124-140 | a caller that begins when a host is in place installs nothing and, unless it crashes, returns if and only if that host has the version asked for, and fails on the comparison otherwise |
| HostPackage.ComparisonOfFolder | scripts/package/host-package.ts:171-176 | the same comparison for callers that began earlier: none returns a host of another version, and none fails on the comparison of the right one |
| HostPackage.NobodyWaits | scripts/package/host-package.ts:124-169 | no process waits for another, and every step but npm's writing brings it nearer to its end |
| HostPackage.CrashesAnywhere | scripts/package/host-package.ts:124-169 | a call can begin at any time and crash between any two of its steps, and then leaves its staging folder behind |
| HostPackage.WrongVersionIsPublished | scripts/package/host-package.ts:131-140 | a run that puts a host of another version in place and fails only afterwards |
| HostFetches.FetchingHosts.Begin | scripts/package/host-package.ts:100-106 | a call joins the fetch of its folder or starts one and enters it |
| HostFetches.FetchingHosts.Finish | scripts/package/host-package.ts:107-111 | the call that started a fetch removes its entry |
| HostFetches.SingleFlight | scripts/package/host-package.ts:100-114 | in every interleaving the map has an entry exactly while a fetch for the folder is in flight, and there is never a second one |
| HostFetches.JoinsOrStarts | scripts/package/host-package.ts:103-106 | a call starts a fetch exactly when none is in flight for its folder |
| HostFetches.JoinersShareOutcome | scripts/package/host-package.ts:103-108 | all calls of one fetch end with its outcome |
| Fences.RewriteOutsideFences | scripts/homepage/homepage-export.ts:77-89 | the loop rewrites exactly the lines outside fences and keeps all others |
| Fences.MarkerIsExact | scripts/homepage/homepage-guide.ts:60 | a marker is at least three backticks or at least three tildes behind any indentation |
| Fences.OtherLinesAreNone | scripts/homepage/homepage-guide.ts:60 | a line that begins with something else is no marker |
| Fences.BlockIsOpened | scripts/homepage/homepage-guide.ts:60-62 | outside a block a marker opens one of its sort and length |
| Fences.BlockOfEitherSort | scripts/homepage/homepage-guide.ts:60-64 | inside a block everything stays inside, markers of the other sort and shorter ones included, until the first marker of its own sort that is no shorter |
| Fences.FenceRoundTrip | scripts/homepage/homepage-llms.ts:6-10 | a printed block opens on its first line, stays open on every line of any value, gives the value back up to one final newline, and closes on its last line if and only if the language does not begin with a backtick |
| Fences.FenceIsShortest | scripts/homepage/homepage-llms.ts:6-10 | a fence of more than three backticks is one longer than a run that stands in the value |
| Fences.BacktickLanguageStaysOpen | scripts/homepage/homepage-llms.ts:6-10 | a block whose language is a backtick is left open, whatever its value |
| Fences.RewriterKeepsCode | scripts/homepage/homepage-export.ts:77-89 | in any document of such blocks and text without fences no line of a block changes, and no fence is left open |
| Guide.GuideExcerpt | scripts/homepage/homepage-guide.ts:54-89 | the loop computes the excerpt of the lines, errors included, and a text that is not public is refused |
| Guide.ExcerptInvertsPrint | scripts/homepage/homepage-guide.ts:54-89 | from printed sections the excerpt is exactly the trimmed contents of those with the name, in order; markers inside fences are content |
| Guide.ExcerptOfDocument | scripts/homepage/homepage-guide.ts:54-89 | the same for the document as one text |
| Guide.SuccessAlternates | scripts/homepage/homepage-guide.ts:70-84 | a success means that the unfenced markers alternate with equal, known names |
| Guide.AlternatingIsPrinted | scripts/homepage/homepage-guide.ts:59-83 | lines whose markers alternate are a printed document |
| Guide.ExcerptVerdict | scripts/homepage/homepage-guide.ts:54-89 | every document is either printed, with the excerpt its sections demand, or has no excerpt for any chapter |
| Guide.VerdictIsShared | scripts/homepage/homepage-guide.ts:70-84 | whether the markers are in order does not depend on the chapter asked for |
| Guide.ExcerptFails | scripts/homepage/homepage-guide.ts:59-86 | every document without an excerpt has a reason that its error names: the first marker out of order and what is wrong with it, a section left open, or no section of the chapter |
| Prompts.BoundedTextFits | scripts/acp/content.ts:10-11 | for every limit, a bounded text keeps it if and only if the text fits or the limit has room for the mark; then it is unchanged exactly when the text fits |
| Prompts.Gather | scripts/acp/content.ts:14-35 | the loop collects the parts and attachments, or the first error |
| Prompts.PromptMessage | scripts/acp/content.ts:13-41 | the message of the blocks, or the error that comes first |
| Prompts.FirstErrorIsFirst | scripts/acp/content.ts:14-35 | a prompt is refused with the error of its first block that no part can be made of |
| Prompts.PartSaysBlock | scripts/acp/content.ts:17-33 | what the part of each sort of block says |
| Prompts.PartsInOrder | scripts/acp/content.ts:36 | the parts are those of all blocks that say something, in the order of the blocks |
| Prompts.MessageIsChecked | scripts/acp/content.ts:36-41 | which messages are accepted, and for what the others are refused |
| Prompts.AttachmentIsOfBlock | scripts/acp/content.ts:20-31 | the attachments are those of all images and binary resources in order, each with the media type, the data and the place of its block |
| Prompts.AttachmentNamesDiffer | scripts/acp/content.ts:18-31 | every attachment of a message has a name of its own |
| Prompts.ResourceRoundTrip | scripts/acp/content.ts:24-28 | the fence around a resource closes on its last line only, and the lines between are the whole text |
| Contracts.FailsExactlyOnMissingOrCycle | scripts/homepage/homepage-extensions.ts:1341-1350 | a contract cannot be read if and only if a missing base or a cycle can be reached from it, and the error names which |
| Contracts.DeclarationsAreLinearised | scripts/homepage/homepage-extensions.ts:1349-1354 | otherwise every interface that can be reached is listed once, every base before the interfaces that extend it |
| Contracts.BasesKeepOrder | scripts/homepage/homepage-extensions.ts:1349-1353 | whatever one of the first bases leads to is listed before everything that only later ones lead to |
| Contracts.PathsAreListed | scripts/homepage/homepage-extensions.ts:1345-1353 | after a success no way up the bases comes back to itself |
| Contracts.FailureIsExplained | scripts/homepage/homepage-extensions.ts:1345-1353 | every failure has a way up to a missing base or back to an interface on that way |
| Contracts.EmbeddedDeclaration | scripts/homepage/homepage-extensions.ts:1314-1324 | the loop finds the closing brace of a declaration, or fails |
| Contracts.IndexOfIsFirst | scripts/homepage/homepage-extensions.ts:1314-1316 | a mention or a brace is looked up at its first place |
| Contracts.NoMention | scripts/homepage/homepage-extensions.ts:1314-1315 | nothing is found exactly if it stands nowhere |
| Contracts.ClosesAfterNested | scripts/homepage/homepage-extensions.ts:1317-1321 | a closing brace is found exactly behind text whose braces match |
| Contracts.EmbeddedIsFound | scripts/homepage/homepage-extensions.ts:1314-1324 | a declaration in the middle of a text is returned exactly if the braces of its body match |
| Contracts.EmbeddedInterfaceIsFound | scripts/homepage/homepage-extensions.ts:1314-1324 | the same for the interface of a name |
| Versions.CompareIsTotalPreorder | scripts/publish-version.ts:5-11 | the order is total and transitive, and equal versions differ in the tag alone |
| Versions.CompareIsBySignificance | scripts/publish-version.ts:5-11 | a place counts only where all places before it are equal |
| Versions.LatestIsLastOfGreatest | scripts/publish-version.ts:21 | the last of the sorted list is the last of the greatest versions |
| Versions.NextIsLeastFree | scripts/publish-version.ts:19-26 | the next version is the least that is not below the current one and above every published one |
| Versions.NextIsReported | scripts/publish-version.ts:19-26 | which version is reported as the latest, and when the next one is the current version with its tag |
| Versions.KnownInOrder | scripts/publish-version.ts:21 | the published versions are considered in their order |
| Versions.ReleaseIsLeastFree | scripts/publish-version.ts:29-30 | the same for every version of a list of current ones |
| Versions.ReleaseIsOfOne | scripts/publish-version.ts:29-30 | whatever else is in the list, the release is that of one of its entries, and fails exactly if that one is no version |
| Colors.RgbOf | scripts/maintenance/palettes.ts:71-79 | the chroma loop ends and computes the color at the fitted chroma |
| Colors.ChromaIsFitted | scripts/maintenance/palettes.ts:71-77 | the loop ends in the gamut or without chroma, going down in steps of 0.002, and every chroma before was outside |
| Colors.FittedIsBetween | scripts/maintenance/palettes.ts:71-77 | the fitted chroma lies between none and the one asked for |
| Colors.ChannelsStandAlone | scripts/maintenance/palettes.ts:71-85 | each channel of a color depends on its own light alone, and a gray light gives a gray color |
| Colors.ByteIsNearest | scripts/maintenance/palettes.ts:81 | a channel is written as the nearest byte |
| Colors.DecodeInvertsEncode | scripts/maintenance/palettes.ts:50-51 | decoding inverts encoding, on the curved part given that the two powers are inverse there |
| Colors.DecodeAtEnds | scripts/maintenance/palettes.ts:51 | no light and, for a power that keeps one, all light are decoded as they are |
| Colors.FullByte | scripts/maintenance/palettes.ts:92 | a full byte is all of a channel, and zero none of it |
| Colors.ChannelIsDecoded | scripts/maintenance/palettes.ts:87-92 | a channel is the light that its share of a full byte stands for |
| Colors.LuminanceOfPrimaries | scripts/maintenance/palettes.ts:87-92 | red, green and blue have the luminance of their own channel alone |
| Colors.WeightsOfPrimaries | scripts/maintenance/palettes.ts:89 | the luminance of the primaries, of white and of black |
| Colors.RatioIsOfLighter | scripts/maintenance/palettes.ts:94-97 | the contrast of two luminances is the lighter over the darker, each with the flare |
| Colors.ContrastAtEnds | scripts/maintenance/palettes.ts:94-97 | white on black has a contrast of 21, a color on itself one of 1 |
| Colors.ContrastIsSymmetric | scripts/maintenance/palettes.ts:94-97 | contrast does not depend on the order |
| Colors.ContrastIsBounded | scripts/maintenance/palettes.ts:87-97 | contrast lies between 1 and 21 |
| Colors.ParsedInvertsText | scripts/maintenance/palettes.ts:81-92 | parsing a printed color gives its bytes back, with or without an alpha |
| Palettes.FitLightness | scripts/maintenance/palettes.ts:102-111 | the search returns the first point of its grid that meets all targets, and fails only when none of them does |
| Palettes.SearchIsExact | scripts/maintenance/palettes.ts:102-111 | the search ends at `start + n * step` exactly if n is below 160, all points behind the start lie between 0 and 1, the color there is far enough from every surface, and none before it is |
| Palettes.Palette.Fit | scripts/maintenance/palettes.ts:113-114 | a fitted token gets the color of the first lightness that keeps its distances; without one no token changes and no point of the grid keeps them |
| Palettes.Palette.Backdrop | scripts/maintenance/palettes.ts:127-130 | the first surfaces are those of the plan |
| Palettes.Palette.Surfaces | scripts/maintenance/palettes.ts:131-134 | so are the others and the two texts the seed places |
| Palettes.Palette.Lines | scripts/maintenance/palettes.ts:138-143 | borders and bands follow the plan, or their search has no solution |
| Palettes.Palette.Selection | scripts/maintenance/palettes.ts:145-151 | the selection, what follows its lightness, and its border follow the plan, or a search has no solution |
| Palettes.Palette.Texts | scripts/maintenance/palettes.ts:154-164 | the same for primary and active text |
| Palettes.Palette.Semantics | scripts/maintenance/palettes.ts:166-173 | the same for the semantic texts |
| Palettes.Palette.Code | scripts/maintenance/palettes.ts:177-180 | the same for code surfaces |
| Palettes.Palette.Diffs | scripts/maintenance/palettes.ts:182-193 | the same for fills, edits and gutters of differences |
| Palettes.Palette.Syntax | scripts/maintenance/palettes.ts:195-205 | the same for syntax colors |
| Palettes.ModeTokens | scripts/maintenance/palettes.ts:116-205 | the tokens keep to the plan; there are none only if some search has no solution, and then no palette keeps to the plan |
| Palettes.PaletteIsUnique | scripts/maintenance/palettes.ts:116-205 | at most one palette keeps to the plan of a seed and a mode |
| Palettes.SearchMovesAway | scripts/maintenance/palettes.ts:102-114 | in every palette a searched token is at least as light as its start in the dark mode and at most as light in the light one, by less than 0.8, and inside the unit interval if it moved |
| Palettes.PaletteShowsSeed | scripts/maintenance/palettes.ts:116-130 | in every palette the surfaces have the hue and chroma of the neutral, and the selected text those of the accent, at the lightness of the ladder of the mode |
| Palettes.StuckForGood | scripts/maintenance/palettes.ts:102-114 | once a search finds no lightness, no palette at all keeps to the plan |
| Palettes.FittedRulesPass | scripts/maintenance/palettes.ts:297-336 | in every palette that keeps to the plan of a seed and a mode, every contrast rule that a search is responsible for passes |
| Palettes.SearchedTokensPass | scripts/maintenance/palettes.ts:297-336 | in every palette every checked rule passes whose first token is not fixed by the seed alone |
| Palettes.PaletteTokens | scripts/maintenance/palettes.ts:294-336 | the same for the contrast and the colors of the stylesheet, for every seed: its palette with these rules, or none if there is none |
| Questions.FieldNamesDiffer | scripts/acp/questions.ts:9-15 | no two fields of a form have the same name |
| Numbers.DecimalDenotes | scripts/acp/questions.ts:10 | the number in the name of a field is that of its question, in decimal and without leading zeros |
| Questions.FormHasFields | scripts/acp/questions.ts:9-15 | every question's two fields are in the form with their own schemas |
| Questions.ComplaintsAreExact | plugins/ragents.ask/ask-payload.ts:99-125 | there are no complaints if and only if there is one acceptable answer for each question |
| Questions.ComplaintsAreFaults | plugins/ragents.ask/ask-payload.ts:99-125 | every fault of an answer is complained about at its place, and nothing else is |
| Questions.NoDuplicates | plugins/ragents.ask/ask-payload.ts:47-48 | no duplicates are named if and only if there are none |
| Questions.FormAnswersAreAcceptable | scripts/acp/questions.ts:30-38 | answers to a form are sent exactly when every question has one, and are free of complaints if and only if no list repeats a choice |
| Questions.AnswersSayContent | scripts/acp/questions.ts:30-38 | a free answer is the text as typed, and otherwise the answer is the choice or the choices in their order |
| Questions.RepeatedChoiceIsSent | scripts/acp/questions.ts:30-38 | a content that follows its form and names a choice twice is sent and has complaints |

## Left out

- JSON itself: a parser of journal lines, and the shape checks of payloads and answers, are parameters or typed values; a JSON value that has the wrong type for a question or an answer does not occur.
- Journal.JournalReader.Next: a read returns all bytes up to the size seen before; short reads of the file do not occur.
- Number formats, dates and the text of lines: times are integers, printed lines are values, token counts are exact.
- Time of a run: that views only grow, that ids are unique and that what was in view while a turn ran is not dated after its end are premises of the theorems about following.
- HostPackage.HostStorage.RenameStaging: a rename is atomic and fails on any folder that exists; a rename onto an empty folder does not occur.
- HostPackage.HostStorage.CleanUp: a removal does not fail.
- The check of the version's form in `ensureHostPackage`, the search for npm and the integrity check of a download: npm and downloads succeed or fail freely.
- The editor connection before a session exists, listing, loading and configuring sessions, and what a close does to workspaces and MCP connections.
- A prompt whose blocks make no message is refused before it is entered; the model of the connection starts behind that check, which `Prompts` models.
- The reason of an outcome, printed beside the lines of a followed turn, and the wording of errors.
- The attachments of replayed user events and what `chatUpdates` makes of an event: an event carries its updates.
- Which turn an interrupt reaches is up to the host: the model says which prompt of the session is active when it goes out.
- Infinite runs: that the host replies and that a scheduler lets every call go on are not stated; what is proved is what each call waits for.
- `workspaces.ts`: its cache evicts a failed registration once per waiter, so that no single-flight statement holds there.
- The pattern of `assertPublicOutput`, the link patterns and their targets: whether a text is public, and the rewriter of a line, are parameters.
- Printing interfaces and their members with the TypeScript compiler: an interface is its name and its bases.
- Versions.ReleaseIsOfOne: how a sort places texts that are no versions is up to the engine and a parameter here; numbers have no upper bound.
- Floating point in palettes: arithmetic is exact, the conversion from OKLCH is a parameter, and so are the two powers, which map the unit interval into itself.
- Tokens that no contrast rule mentions, and the style sheet as text.
- Rules on colors the seed places itself, such as foreground, muted, primary-foreground, selected-foreground, card and secondary: they rest on the seeds, and no search makes sure of them.
- Palettes.FitLightness: each step of the grid is exact, while the source adds floating point numbers.
- The race of a form with an abort, a declined form and the call that sends the answers.
- MCP server names and definitions, host processes, deployment, the web pages and everything outside the files named above.
