# A verified model of the ticket workflow's gates, locks, ledgers and diffs

The program takes a ticket through one or more repositories. A worker edits, tests and reviews
run, and a broker outside the worker's container shows a human the diff and pushes exactly what
was approved. This project models the parts of it that many steps share, and proves what every
run of them keeps.

`dafny verify dfyconfig.toml` checks the whole project.

| modules | what they model |
|---|---|
| ApprovalHub, DecideJobs, DecideWinner | the broker's pending request, its two socket operations, and the race of terminal, socket and abort as a queue of promise jobs (section 27.2.2 of ECMA-262) |
| Remotes, PublishHandler, PublishServer, PublishSerial, PublishAccepts | the handler's checks before and after the approval, and the one-request-at-a-time socket server, as tasks of an event loop with arbitrary readings at every await |
| LockProtocol, LockFile | the per-ticket lock file: create, write, read, test, rename, discard, re-create, check, unlink and crash as separate steps of any number of processes; every creation has its own instance number |
| JsText, Utf8, GitPath, DiffGitLine, DiffParser, DiffOrder, DiffTotals | the unified-diff parser with its path decoder |
| GitDiff, DiffReading, DiffNames, DiffRoundTrip, DiffEndings | what git prints for a list of changed files, and the proof of when parsing undoes it |
| TokenDiff, SplitRows | the browser's word diff, its in-place highlighting and the side-by-side rows |
| SpineLedger, SpineExecutor, SpineRuns, SpineReplies, SpineAnswers, SpineAttest, SpineHollow, SpineDanger | the ledger of verdicts and budgets, its file, and the executor across crashes and restarts |
| BrokerClient, PollRuns, PollHistory | the view cache and history ring between the browsers and the broker |
| Orchestrator, TicketDriver, TicketRecords, TicketCrashes | the bounded fix loop of one repository, the resumable driver over several, and what its crashes forget |
| UserQueue | the queue of user messages |

Objects that the source updates in place are classes (`ApprovalHub.Hub`, `LockFile.LockDir`,
`SplitRows.Line`, `SpineLedger.SpineLedger`, `BrokerClient.Client`, `TicketDriver.Store`,
`UserQueue.UserQueue`), loops are methods with invariants, and both are tied by their contracts
to functions. The theorems over runs are about those functions.

## Where the code and its description differ

The model follows the code. In these places the code does not do what its comments or the
obvious reading promise; each has a run or an input that shows it, and the exact condition.

- `harness/src/spined/lock.ts:25-37` says that renaming makes the takeover atomic. The rename can
  land on the file a faster racer has just created (`LockProtocol.TwoHoldersAreReachable`).
  Exclusion holds exactly while no rename evicts a file its living creator relies on
  (`EvictionIsExactlyTheDanger`, `ExclusionIffNoEviction`).
- `broker/src/server.ts:8-10` says "serial by construction". A read timeout, an oversized request
  or an error releases the flag, and the socket's close event releases it again, by then for
  another connection (`PublishAccepts.TwoHandlersAreReachable`). One handler at a time holds
  exactly without such releases (`PublishSerial.SerialIffNoStaleRelease`).
- `serve/src/diff.ts:154-158` expects the fallback paths for mode changes only, and the header
  tests run before the hunk branch. Removed text starting "-- ", added text starting "++ ", a
  trailing carriage return, a section heading with a line separator, an empty added or deleted
  file, a binary file whose old name meets " and " too early, and an unquoted name with a space
  at its end do not survive. `DiffRoundTrip.ParseUndoesPrintIff` shows that nothing else is lost,
  `DiffEndings.RoundTripWithReturnsIff` that a CRLF file comes back with its lines less that return.
- A failed worker run that moved HEAD is not recorded (`harness/src/spine/executor.ts:199-202`);
  the ledger's verdicts then still count (`SpineDanger.UnbackedCallIsReachable`). Tests and
  reviews are recorded at the HEAD they end at, not the one they began at. Every publish is
  backed exactly while no other hand moves HEAD to a dangerous commit
  (`SpineDanger.MoveIsHarmfulIff`, `SpineDanger.BackedIffNoDangerousMove`).
- `done` and `abort` consume an action first, so an exhausted session cannot end itself
  (`SpineRuns.ExhaustedIsReachable`). An idle session can end exactly while an action is left
  (`SpineRuns.CanEndIffActionsLeft`).
- The browser polls on its timer and after each decision; overlapping polls can leave it with
  something else than the reply meant (`PollRuns.OverlapDisagrees`).
- A crash between an attempt that published and its save forgets the publish
  (`TicketCrashes.CrashForgetsAnAttempt`). An attempt whose outcome is "published" is forgotten
  in no other way (`TicketCrashes.ForgottenIffCutBeforeItsSave`). The repeat can follow
  another instruction exactly when the file shows nothing published
  (`TicketCrashes.UnderAnotherIffNothingPublished`). Duplicate names in one run repeat a published
  repository (`TicketDriver.RunIsProperIff`).

## Model

| member | source | states |
|---|---|---|
| `TokenDiff.TokenizeIsLossless` | serve/src/assets/app.js:420-422 | The tokens of a text concatenate to the text. |
| `TokenDiff.TokenizationIsUnique` | serve/src/assets/app.js:420-422 | A text has exactly one split into maximal word runs and single other characters, and the tokenizer finds it. |
| `TokenDiff.LcsIsMaximum` | serve/src/assets/app.js:436-440 | The recurrence gives the length of a longest common subsequence: no common subsequence is longer. |
| `TokenDiff.ScriptIsOptimal` | serve/src/assets/app.js:448-471 | The walk edits the old tokens into the new ones, and the tokens it keeps form a common subsequence of maximum length. |
| `TokenDiff.HighlightsAreLosslessAndOptimal` | serve/src/assets/app.js:426-473 | For all texts: segments concatenate to their side's text, no two neighbours share a kind, each side has no segment of the other side's kind; under the cap the kept tokens are as many as any common subsequence can have. |
| `TokenDiff.FillRow` | serve/src/assets/app.js:437-439 | One row of the table, right to left, holds the longest-common-subsequence lengths of all suffixes. |
| `TokenDiff.FillTable` | serve/src/assets/app.js:434-440 | The whole table holds those lengths. |
| `TokenDiff.Walk` | serve/src/assets/app.js:448-472 | The loop over the table produces the segments of the optimal script. |
| `TokenDiff.Compare` | serve/src/assets/app.js:426-473 | The comparison as carried out, cap included, gives the specified segments. |
| `SplitRows.MatesAreMutual` | serve/src/assets/app.js:480-487 | Partnership of a removed and an added line is mutual, and always joins one of each. |
| `SplitRows.HighlightBlock` | serve/src/assets/app.js:488-494 | In place: the k-th removal and the k-th addition of a block get the two sides of their comparison, all other lines keep their segments. |
| `SplitRows.ComputeIntralineHighlights` | serve/src/assets/app.js:476-501 | In place: every line gets the segments its partner dictates, every line without a partner keeps its own. |
| `SplitRows.SplitRowsFor` | serve/src/assets/app.js:1087-1114 | The loop gives exactly one row for each context line, each removal and each addition that no removal stands beside, in the order of the lines: context on both sides, a removal beside the addition at its offset or a blank, a lone addition on the right. |
| `SplitRows.BlocksArePaired` | serve/src/assets/app.js:1095-1107 | Every block of m removals and n additions takes max(m, n) rows in a place of its own: the k-th removal beside the k-th addition, and blanks beside what the longer run has over. |
| `SplitRows.RowsKeepLines` | serve/src/assets/app.js:1087-1113 | Left cells are the context and removed lines in order, right cells the context and added lines in order. |
| `SplitRows.NoEmptyRow` | serve/src/assets/app.js:1105-1109 | No row is blank on both sides. |
| `SplitRows.PartnersShareARow` | serve/src/assets/app.js:476-501 | Every pair of highlighted partners sits in one row. |
| `Utf8.DecodeUndoesEncode` | serve/src/diff.ts:131-139 | Decoding the encoded text gives the text back, whatever bytes follow. |
| `Utf8.IllFormedIsReplaced` | serve/src/diff.ts:139-139 | Where no whole encoding stands, one U+FFFD replaces the longest run of bytes that some encoding begins with, or one byte. |
| `GitPath.FindClosingQuote` | serve/src/diff.ts:80-89 | The loop returns the first quote after the opening one that no backslash escapes, or -1. |
| `GitPath.ClosingQuoteIsFound` | serve/src/diff.ts:80-89 | For every byte string, quoted as git quotes it and followed by anything, the closing quote found is the true end. |
| `GitPath.UnescapeLoop` | serve/src/diff.ts:94-138 | The decoder's loop, with its jumps over escapes, computes the specified bytes. |
| `GitPath.UnquoteGitPath` | serve/src/diff.ts:91-140 | Trimming, the quote test and decoding together give the specified path. |
| `GitPath.UnescapeUndoesEscape` | serve/src/diff.ts:97-130 | Decoding inverts git's escaping of every byte string, whatever text follows. |
| `GitPath.OctalEscapeIs` | serve/src/diff.ts:116-126 | One to three octal digits after a backslash, as many as there are, make one byte. |
| `GitPath.UnknownEscapeIs` | serve/src/diff.ts:127-134 | An escape that means nothing keeps its character, and a backslash at the end stands for itself. |
| `GitPath.UnquoteUndoesQuote` | serve/src/diff.ts:91-140 | Quoting then unquoting is the identity on every byte string. |
| `GitPath.PrintedPathDecodes` | serve/src/diff.ts:91-140 | A path as git prints it comes back if and only if it was quoted or has no space at either end. |
| `GitPath.RawQuotingDecodesIff` | serve/src/diff.ts:132-137 | With `core.quotePath` off, a quoted path comes back if and only if it has no character beyond the basic plane: the decoder walks UTF-16 units. |
| `DiffGitLine.OnlyTheMiddleSplits` | serve/src/diff.ts:172-181 | Equal halves are possible at one index only, the middle. |
| `DiffGitLine.SplitUnquoted` | serve/src/diff.ts:170-191 | The search loop ends and returns the equal-halves split if there is one, else the first marker's split. |
| `DiffGitLine.ParseDiffGitLine` | serve/src/diff.ts:159-192 | Both the quoted and the unquoted branch give the specified pair. |
| `DiffGitLine.UnquotedPathIsFoundTwice` | serve/src/diff.ts:170-182 | For every path at all, "diff --git a/p b/p" gives p twice. |
| `DiffGitLine.QuotedPairIsSplit` | serve/src/diff.ts:163-169 | For all byte strings, a quoted pair is split at the true end and both paths come out. |
| `DiffParser.CountInHunks` | serve/src/diff.ts:247-254 | The nested counting loops give the numbers of added and removed lines. |
| `DiffParser.FinalizeDraft` | serve/src/diff.ts:228-268 | The finished file has the fallback paths, status and counts specified. |
| `DiffParser.Advance` | serve/src/diff.ts:293-434 | One turn of the loop is one step of the specified parser. |
| `DiffParser.ParseUnifiedDiff` | serve/src/diff.ts:270-444 | The parser's loop over any text gives the specified result, totals included. |
| `DiffParser.ParsedIsNumberedAndCounted` | serve/src/diff.ts:247-266 | For any text: in each hunk old numbers count up from oldStart over context and removed lines, new numbers from newStart over context and added lines, absent exactly on the other side; all totals equal the counts. |
| `DiffTotals.TotalsCountTheLines` | serve/src/diff.ts:436-443 | For any text the totals are the numbers of added and of removed lines in all hunks, and those of a file the numbers in its own hunks. |
| `DiffTotals.NoiseEndsTheHunk` | serve/src/diff.ts:422-434 | A line that is no part of a diff ends the hunk before it, and what looks like diff lines after it belongs to nothing until the next hunk header. |
| `DiffTotals.PreambleIsIgnored` | serve/src/diff.ts:293-301 | What stands before the first `diff --git` line changes nothing. |
| `DiffEndings.EndingsDoNotMatter` | serve/src/diff.ts:270-280 | For every text, split into what its lines say and whether one carriage return stands before the newline: parsing it is stepping through what the lines say, whatever their endings. |
| `DiffEndings.EveryTextIsSplit` | serve/src/diff.ts:270-280 | Every text is such a series of lines. |
| `DiffEndings.RoundTripWithReturnsIff` | serve/src/diff.ts:270-444 | Printed files come back from a text in which any of the lines have a carriage return before the newline, with their lines less that one return, exactly when they come back without any. |
| `DiffOrder.ParsedKeepsOrder` | serve/src/diff.ts:381-432 | For any text: hunk headers and lines of the result are distinct lines of the text in their order; nothing is invented, repeated or moved. |
| `DiffReading.HeaderIsTaken` | serve/src/diff.ts:194-194 | A printed hunk header followed by any section text is recognised, with its ranges, if and only if the section has no line break of any kind. |
| `DiffReading.BodyIsExpectedIff` | serve/src/diff.ts:397-423 | Printed body lines all come back, numbered and marked, if and only if no header test takes one and none ends in a carriage return. |
| `DiffReading.HunksAreExpectedIff` | serve/src/diff.ts:381-432 | A list of printed hunks comes back if and only if every hunk is clean. |
| `DiffNames.SideIsReadIff` | serve/src/diff.ts:148-152 | A `---` or `+++` name comes back, tab or not, if and only if it is quoted or does not end in a space. |
| `DiffNames.NameIsReadIff` | serve/src/diff.ts:323-342 | A rename or copy name comes back if and only if it is quoted or has no space at either end. |
| `DiffNames.FirstAnd` | serve/src/diff.ts:357-361 | The first " and " of a binary line separates the names, or else it lies inside the old one. |
| `DiffNames.CutNameIsWrong` | serve/src/diff.ts:360-362 | A binary line split inside the old name never gives the right old path, quoted or not. |
| `DiffRoundTrip.ParseUndoesPrintIff` | serve/src/diff.ts:270-444 | For every list of git-style files: parsing the printed text gives the same files, paths, statuses, modes, similarity, hunks, lines and end-of-file marks if and only if every file meets the stated conditions. |
| `DiffRoundTrip.RemovedDashesAreLost` | serve/src/diff.ts:372-375 | A concrete file whose removed line "-- x" does not come back. |
| `DiffRoundTrip.EmptyFileHasNoPath` | serve/src/diff.ts:229-238 | Every empty added or deleted file comes back as one file with its status and without either path. |
| `LockProtocol.MutualExclusion` | harness/src/spined/lock.ts:91-204 | In every interleaving of any number of processes, crashes included, at most one process holds the lock, provided no rename lands on a file created after its renamer read the dead pid. |
| `LockProtocol.NoEvictionKeepsExclusion` | harness/src/spined/lock.ts:91-204 | The same under the weaker condition that no rename removes a file its living creator still relies on. |
| `LockProtocol.OldInstanceIsStale` | harness/src/spined/lock.ts:163-174 | A file that was already there when its dead owner was read is nobody's lock. |
| `LockProtocol.RenamingOldNeverEvicts` | harness/src/spined/lock.ts:120-123 | Renaming only such files evicts nobody. |
| `LockProtocol.EvictionIsExactlyTheDanger` | harness/src/spined/lock.ts:120-140 | From an exclusive state, a rename can be followed by two holders without any further eviction if and only if it evicts. |
| `LockProtocol.ExclusionIffNoEviction` | harness/src/spined/lock.ts:91-204 | Along a run, exclusion is safe at every point if and only if no rename evicts. |
| `LockProtocol.TwoHoldersAreReachable` | harness/src/spined/lock.ts:120-140 | A run from the start after which processes 2 and 3 have both read the pid of a dead process 1; then 2 takes the lock over, 3 takes it over after it, and both hold it. |
| `LockProtocol.PeekSeesTheHolder` | harness/src/spined/lock.ts:220-226 | The read-only peek reports true throughout while an undisturbed holder lives. |
| `LockFile.LockDir.IsLockPotentiallyLive` | harness/src/spined/lock.ts:220-226 | The three looks with other processes acting between them: a no is said only of a free path or of a recorded owner that is dead; undisturbed, exactly then. |
| `LockFile.LockDir.TryCreate` | harness/src/spined/lock.ts:91-106 | Create-exclusive and the pid write, with other processes running between them, are a run of the protocol; undisturbed, it wins exactly on a free path. |
| `LockFile.LockDir.JudgeOwner` | harness/src/spined/lock.ts:154-170 | Reading the pid and testing it is a run; undisturbed, it goes on to a takeover exactly on a dead owner's file. |
| `LockFile.LockDir.TakeOverStaleLock` | harness/src/spined/lock.ts:120-140 | Rename and discard are a run that ends ready to create again, or with nothing. |
| `LockFile.LockDir.AcquireLock` | harness/src/spined/lock.ts:150-204 | Every attempt is a run that ends holding the lock or with nothing; undisturbed, it succeeds exactly on a free path or a dead owner's file. |
| `LockFile.LockDir.Release` | harness/src/spined/lock.ts:187-201 | Removes only a file that records this process's pid; a second call does nothing. |
| `ApprovalHub.Hub.Status` | broker/src/gate.ts:77-84 | Answers "unchanged" exactly for the id that is pending. |
| `ApprovalHub.Hub.SubmitApprove` | broker/src/gate.ts:86-102 | Reply and new state of an approval: stale, no pending, match, mismatch, exhausted. |
| `ApprovalHub.Hub.SubmitDecline` | broker/src/gate.ts:104-109 | Reply and new state of a decline. |
| `ApprovalHub.Hub.ReportOutcome` | broker/src/gate.ts:121-123 | Only an approved outcome gets a publish result. |
| `ApprovalHub.OneVotePerPending` | broker/src/gate.ts:86-129 | Over any series of socket operations at most one is accepted as final, it is the one the list dictates, and until then attempts left are those given minus the mismatches. |
| `ApprovalHub.AfterTheVote` | broker/src/gate.ts:86-109 | After it every operation answers no_pending and changes nothing. |
| `ApprovalHub.FreshRequestVerdict` | broker/src/gate.ts:86-102 | A fresh request is approved by the socket only through its own id and short sha, before three mismatches; attempts left are 3 minus the mismatches. |
| `JsText.TrimIs` | broker/src/gate.ts:92-92 | Trimming what was typed takes white space off both ends, all of it and nothing else. |
| `DecideJobs.JobsRunOut` | broker/src/gate.ts:198-217 | Draining the job queue terminates. |
| `DecideJobs.TaskOutcome` | broker/src/gate.ts:187-230 | What one task does to a waiting decision: with an abort in it, in any order, it ends rejected; otherwise, if it votes, one of its votes decides; without either it goes on waiting. |
| `DecideWinner.FirstVoteDecides` | broker/src/gate.ts:167-217 | Which vote decides a task without an abort: the one that settles after the fewest rounds of jobs, and of several such the one cast first; a typed answer counts its own awaits and a failed prompt loses the race. |
| `DecideWinner.OneVoteDecides` | broker/src/gate.ts:167-217 | Wherever anything was voted there is exactly one such vote. |
| `DecideJobs.FirstTaskDecides` | broker/src/gate.ts:198-230 | The first task that votes or aborts settles the decision; later tasks cannot change it. |
| `DecideJobs.ApprovalPrecedesAbort` | broker/src/gate.ts:187-217 | If the decision is an approval, no abort had fired by the end of the task that cast the deciding vote. |
| `DecideJobs.BegunAborted` | broker/src/gate.ts:162-196 | A decision begun with the signal already fired is rejected. |
| `DecideJobs.BegunSettled` | broker/src/gate.ts:171-217 | A decision begun with an approver that has already settled and no signal fired is what the approver said, or rejected if it failed. |
| `DecideJobs.LosingPromptIsStopped` | broker/src/gate.ts:162-230 | After a task the terminal prompt has been stopped exactly if the signal fired, the socket won, or the race was lost. |
| `Remotes.ParseUndoesCanonical` | broker/src/git.ts:191-211 | Parsing a constructed URL gives its host, organisation and repository back. |
| `Remotes.CanonicalIsInjective` | broker/src/git.ts:206-211 | Equal constructed URLs have equal host, organisation and repository. |
| `Remotes.UrlFormsAreParsed` | broker/src/git.ts:191-199 | Any scheme, with or without a user and a port, with or without `.git` and a slash at the end: host, organisation and repository come out. |
| `Remotes.ShortFormsAreParsed` | broker/src/git.ts:191-199 | So they do from `git@host:org/repo` in all its forms. |
| `PublishHandler.PreparedWithinPolicy` | broker/src/handler.ts:144-277 | What reaches the human is within a policy that its schema takes; its sha, branch, diff and ticket are those that were read, its URL, organisation and repository those of the origin that was read, its title and name those of the request, and its short sha the first twelve digits of its sha. |
| `PublishHandler.PreparedIff` | broker/src/handler.ts:144-228 | A request is put to the human if and only if it, the policy, its worktree, its target and its diff pass every check. |
| `PublishHandler.RefusalNamesFirstFailure` | broker/src/handler.ts:144-228 | A refusal names the first check that fails, in the order in which they are made. |
| `PublishHandler.SameUrlIffSameTarget` | broker/src/handler.ts:307-320 | The re-resolved URL equals the approved one if and only if the origin parses to the same target. |
| `PublishHandler.PushIffRechecked` | broker/src/handler.ts:287-342 | After an approval a push happens if and only if every recheck passes, and carries the approved sha, URL and branch. |
| `PublishHandler.OkIffPublished` | broker/src/handler.ts:287-362 | The reply is a success, and the outcome reported a publish, if and only if every recheck passed, the push succeeded and the pull request was opened. |
| `PublishHandler.EachFailureReplies` | broker/src/handler.ts:287-356 | What each failed recheck, a failed push and an unopened pull request reply. |
| `PublishHandler.ChangedTargetReplies` | broker/src/handler.ts:303-320 | What a target that has changed since the approval replies. |
| `PublishServer.EveryPushIsApproved` | broker/src/handler.ts:204-342 | In every run, under arbitrary readings at every await, each push carries exactly the view its own decide() was given and approved, everything was re-read and found the same, and no reply, signal or earlier push of that connection precedes it. |
| `PublishServer.PushIsReachable` | broker/src/handler.ts:204-342 | For every request the first checks let through, every verdict and every re-reading the last checks accept: the run of accept, data, consult and a typed approval pushes exactly that view. |
| `PublishServer.AtMostOnePerConnection` | broker/src/server.ts:54-147 | Each connection dispatches at most once, replies at most once and pushes at most once, and never pushes after its reply. |
| `PublishServer.NoVerdictAfterAbort` | broker/src/server.ts:87-118 | No decision is won after the connection's signal has fired or a reply was sent. |
| `PublishServer.AbortIsRecordedAsCanceled` | broker/src/gate.ts:201-217 | An abort of a waiting decision, by close, error or budget, leaves nothing pending and is recorded as canceled on the terminal channel without a publish result. |
| `PublishServer.SocketApprovalNamesTheCommit` | broker/src/gate.ts:86-95 | A socket approval that is accepted names the short sha of the view shown for that very request, which is the first twelve digits of the commit that will be pushed. |
| `PublishServer.TerminalIsRecorded` | broker/src/gate.ts:187-230 | Whatever ran before: the terminal's answer is recorded under that request's id as approved, declined or canceled on its channel, an approval with what came of it; the client gets the matching reply and the next connection is let in. |
| `PublishServer.VoteIsRecorded` | broker/src/gate.ts:187-230 | So is a vote that the socket accepts, for the connection whose request is pending. |
| `PublishServer.LateConsultIsCanceled` | broker/src/gate.ts:187-217 | A request whose client left during the consult is recorded as canceled as soon as it is registered. |
| `PublishServer.EveryLineIsAnswered` | broker/src/server.ts:42-147 | Whatever ran before: a second connection is answered busy, an oversized, late or malformed request invalid, one that fails a check with that check's code, and any other goes on to the consult. |
| `PublishServer.BudgetIsAnswered` | broker/src/server.ts:91-100 | When the budget runs out a client that has no reply yet is answered at once. |
| `PublishServer.ApprovedIsAlwaysReported` | broker/src/handler.ts:287-342 | In every reachable state an approved outcome carries its publish result. |
| `PublishSerial.NoStaleReleaseKeepsSerial` | broker/src/server.ts:42-147 | At most one handler is in flight as long as no release acts for a connection that never dispatched while another one is live. |
| `PublishSerial.StaleReleaseIsExactlyTheDanger` | broker/src/server.ts:73-76 | From a serial state a task can be followed by two handlers in flight, without any further such release, if and only if it is one. |
| `PublishSerial.SerialIffNoStaleRelease` | broker/src/server.ts:42-147 | Along a run, seriality is safe at every point if and only if no release is stale. |
| `PublishAccepts.CarefulAcceptsKeepSerial` | broker/src/server.ts:78-147 | At most one handler is in flight if no accept falls between a release before dispatch and that socket's close event. |
| `PublishAccepts.TwoHandlersAreReachable` | broker/src/server.ts:78-147 | A run from the start that begins with accept, read timeout, second accept, close of the first, and ends with two handlers in flight. |
| `SpineLedger.SpineLedger.ConsumeAction` | harness/src/spine/ledger.ts:221-227 | Takes one action or refuses and changes nothing. |
| `SpineLedger.SpineLedger.ConsumeWorkerRun` | harness/src/spine/ledger.ts:231-240 | Takes one worker run or refuses and changes nothing. |
| `SpineLedger.SpineLedger.RecordWorkerRun` | harness/src/spine/ledger.ts:247-255 | A moved head clears both verdicts; an unknown repository changes nothing. |
| `SpineLedger.SpineLedger.RecordTests` | harness/src/spine/ledger.ts:257-261 | Green tests are recorded at their sha, red ones clear the record. |
| `SpineLedger.SpineLedger.RecordReview` | harness/src/spine/ledger.ts:263-267 | An approval is recorded at its sha, anything else clears the record. |
| `SpineLedger.SpineLedger.RecordPlan` | harness/src/spine/ledger.ts:269-273 | A plan replaces the recorded one and touches nothing else. |
| `SpineLedger.SpineLedger.RecordPublished` | harness/src/spine/ledger.ts:275-279 | A publish is recorded and touches no verdict. |
| `SpineLedger.SpineLedger.Persist` | harness/src/spine/ledger.ts:332-344 | The file holds every field of the ledger. |
| `SpineLedger.SpineLedger.Load` | harness/src/spine/ledger.ts:362-417 | A ledger comes back whole, or one of the four errors does. |
| `SpineLedger.LoadUndoesPersistIff` | harness/src/spine/ledger.ts:127-147 | Loading what was persisted restores every field if the schema takes it, and is refused as a shape mismatch otherwise. |
| `SpineExecutor.StepKeepsSound` | harness/src/spine/executor.ts:172-380 | Every step keeps the budgets, the schema and the agreement of the file with the ledger before the running action. |
| `SpineRuns.BudgetsHold` | harness/src/spine/executor.ts:172-191 | Over any dispatches, crashes and restarts workerRunsUsed <= actionsUsed <= maxActions and workerRunsUsed <= maxWorkerRuns; worker steps started are exactly those counted plus those a crash cut short, so at most maxWorkerRuns plus the crashes. |
| `SpineRuns.EveryRestartSucceeds` | harness/src/spine/ledger.ts:362-417 | Every ledger reached passes the schema, and a restart loads exactly the ledger before the running action. |
| `SpineRuns.EndedIsFinal` | harness/src/spine/executor.ts:350-380 | After done or abort no dispatch changes the ledger or its file. |
| `SpineRuns.ExhaustedForGood` | harness/src/spine/executor.ts:172-180 | With no action left nothing is done any more, through any restarts: not even done or abort ends the session. |
| `SpineRuns.CanEndIffActionsLeft` | harness/src/spine/executor.ts:172-180 | A session that is idle and has not ended can still reach its end if and only if an action is left. |
| `SpineRuns.ExhaustedIsReachable` | harness/src/spine/executor.ts:172-180 | Every prepared ticket reaches a state with no action left, not ended, that can no longer end. |
| `SpineRuns.ResumeCommutes` | harness/src/spine/ledger.ts:362-417 | A crash between dispatches is invisible: every later run goes the same way. |
| `SpineAttest.RunKeepsHonest` | harness/src/spine/executor.ts:183-328 | Every run in which HEAD moves only inside successful worker runs keeps each recorded verdict backed by a step that really gave it there. |
| `SpineAttest.EveryCallIsAttested` | harness/src/spine/executor.ts:266-328 | In such runs from a prepared ticket each publish() gets a plan, tests green at its head and an approving review of exactly its diff; recorded heads are the real ones and both staleness branches are unreachable. |
| `SpineDanger.MoveIsHarmfulIff` | harness/src/spine/executor.ts:183-328 | At any moment of any run, whoever moved HEAD in it, also while an action runs: an unbacked publish was made or can follow without any further move by another hand if and only if one was made or some repository's checked-out commit is a dangerous one; and where none could follow before, it can after another hand moved HEAD if and only if the new commit is. Dangerous depends on the entry, the steps that ran, the running action and the budgets left alone: a counting verdict that no step gave at that commit and enough actions to keep it to the end, or to go back to it by a worker run; a running test or review begun at another commit that will count at this one; or a publish about to be confirmed for another commit. |
| `SpineDanger.BackedIffNoDangerousMove` | harness/src/spine/executor.ts:183-328 | Along every run from a prepared ticket, with any moves of HEAD: nothing unbacked was or could be published at any point if and only if no other hand moved HEAD to a dangerous commit, and then every publish of the run is backed. |
| `SpineDanger.UnbackedCallIsReachable` | harness/src/spine/executor.ts:199-202 | From every prepared ticket with four actions: green tests, approval, a HEAD move that no record sees, and an unbacked publish. |
| `SpineAnswers.CallIff` | harness/src/spine/executor.ts:266-328 | publish() is called if and only if the step is a yes to the final question or, under the broker-only policy, a request whose gate is open; then exactly once. |
| `SpineAnswers.AnswerDecides` | harness/src/spine/executor.ts:290-313 | A yes to the caveat leads to the final question, a yes to that to the call for that very diff; any other answer calls nothing, changes nothing and replies declined, or throws. |
| `SpineAnswers.EveryCallWasConfirmed` | harness/src/spine/executor.ts:290-328 | In every in-chat run each call was made by a yes of its own to the final question about the diff of a request whose gate was open; where the change touches tests a yes to the caveat came between, and nothing else was answered since the request. |
| `SpineAnswers.BrokerOnlyNeverAsks` | harness/src/spine/executor.ts:288-296 | Under the broker-only policy no run ever has a question open. |
| `SpineAnswers.GateNamesWhatIsMissing` | harness/src/spine/ledger.ts:304-330 | The gate is open if and only if the plan is there and both verdicts count at the recorded head; otherwise it names the first thing missing. |
| `SpineReplies.EveryDispatchIsAnswered` | harness/src/spine/executor.ts:350-386 | A refusal because the session ended or is busy is free; every other dispatch costs one action whatever comes of it, and writes the file unless it waits. |
| `SpineReplies.EveryActionIsAnswered` | harness/src/spine/executor.ts:172-350 | What each action begins, or which refusal it gets. |
| `SpineReplies.OnlyStepsWriteEntries` | harness/src/spine/executor.ts:183-328 | An entry changes only when a step on its repository ends, and then in what that step reports; dispatches, answers, crashes and moves of HEAD change none. |
| `BrokerClient.CachedIsFound` | serve/src/broker-client.ts:119-125 | After caching an entry it is found, ids stay distinct, at most 20 stay, and at most the oldest entry is forgotten. |
| `BrokerClient.Client.CachePending` | serve/src/broker-client.ts:119-125 | The cache is replaced in place or extended, evicting the oldest. |
| `BrokerClient.Client.RecordOutcome` | serve/src/broker-client.ts:130-153 | The head is refreshed or a new outcome put before it, and the ring cut to 20. |
| `BrokerClient.Client.Receive` | serve/src/broker-client.ts:169-191 | What a reply does: asked again on a cache miss, otherwise expanded, cached and recorded. |
| `BrokerClient.RingIsFront` | serve/src/broker-client.ts:146-152 | The ring is the front of an unbounded log of the same observations. |
| `BrokerClient.LogIsNewestIff` | serve/src/broker-client.ts:146-152 | That log is the distinct outcomes, newest first, each as last observed, if and only if no observation goes back to an older outcome; likewise its ids are distinct. |
| `BrokerClient.RingIsNewest` | serve/src/broker-client.ts:130-153 | Then the ring is the newest distinct outcomes, at most 20, ids pairwise distinct. |
| `PollRuns.BrowserAgreesIff` | serve/src/routes.ts:152-176 | In every run, with any number of browsers, restarts and evictions, a finished poll leaves the browser with the id and view pending at the broker when last asked, unless the reply was "unchanged" and the browser no longer shows what it asked about; at most two broker requests were made. |
| `PollRuns.BrowsersAgree` | serve/src/assets/app.js:735-767 | With one poll at a time per browser the agreement always holds. |
| `PollRuns.OverlapDisagrees` | serve/src/assets/app.js:735-767 | A run in which two overlapping polls of one browser end in disagreement. |
| `PollRuns.HistoryIsNewest` | serve/src/broker-client.ts:130-153 | In every run the history is the front of the log of what was observed; with polls one after another it is the newest distinct outcomes, each as last observed. |
| `PollHistory.HistoryIsTrue` | serve/src/broker-client.ts:130-153 | In every run each history entry tells an outcome the broker did have as its last, the pull request only after a publish that succeeded, and the fields of the view issued under its id, with the target repository as its repository, or none. |
| `PollHistory.ReplyIsEntered` | serve/src/broker-client.ts:161-191 | Whatever happens while a reply is on its way: the outcome that was the broker's last when it answered is the newest entry once the reply is taken, unless that asks again; without an outcome the history stays. |
| `Orchestrator.LoopEndsAtFirst` | harness/src/orchestrator.ts:253-310 | The loop ends clean exactly at the first clean round that at most maxFixes fixes precede, incomplete exactly at the first incomplete diff, and unclean exactly if every round needs a fix. |
| `Orchestrator.OutcomeIff` | harness/src/orchestrator.ts:207-341 | Each outcome if and only if its case: published with the sha and address of the push, declined at one of the two gates, not ready, or failed for want of a clean round or by a refused publish. |
| `Orchestrator.FailureNamesItsCause` | harness/src/orchestrator.ts:258-340 | A failure says which of its three causes it had. |
| `Orchestrator.RunOrchestrator` | harness/src/orchestrator.ts:207-341 | The run as carried out: fixes never exceed the maximum, reviews are fixes plus one unless the diff was incomplete, and publish() is reached if and only if plan and publish were approved and a round got clean; the outcome is published if and only if that call was not refused. |
| `TicketDriver.Store.Begin` | harness/src/multi/driver.ts:239-266 | A new state is saved; a stored one adopts a new instruction exactly when nothing is published. |
| `TicketDriver.Store.SetRepoState` | harness/src/multi/state.ts:63-72 | The repository's record is replaced and the file with it. |
| `TicketDriver.Store.RunPipeline` | harness/src/multi/driver.ts:313-361 | The loop attempts and saves one repository after the other and stops at the first that is not published; the exit code says how it ended. |
| `TicketDriver.Store.RunDriver` | harness/src/multi/driver.ts:209-361 | The run as carried out does the specified attempts and saves, nothing and code 2 without a ticket and an instruction; the code is 0 if there was nothing to do or the plan was declined, and else the pipeline's; the file is always what the last save wrote. |
| `TicketDriver.RunIsProperIff` | harness/src/multi/driver.ts:209-361 | Whatever happens in it, a run never attempts, changes or un-publishes a published repository and publishes only under the stored instruction, if and only if it is refused or no unpublished repository is listed twice. |
| `TicketDriver.PublishedForGood` | harness/src/multi/driver.ts:268-361 | Over any history of runs cut short anywhere, without duplicate names: once a save shows a repository published, every later save shows the same record under the same instruction and nobody attempts it again. |
| `TicketDriver.PublishedUnderStored` | harness/src/multi/driver.ts:109-118 | Every repository such a history leaves published was last attempted under the stored instruction. |
| `TicketDriver.RunAttemptsAPrefix` | harness/src/multi/driver.ts:313-361 | The repositories attempted in a run are a front part of its list, all published but perhaps the last. |
| `TicketRecords.RunRecords` | harness/src/multi/driver.ts:236-361 | What an uncut run leaves in the file: its list recorded as declined if the plan was, otherwise each with its own result as far as the run came and pending from there on; nothing else changes. |
| `TicketRecords.BegunIs` | harness/src/multi/driver.ts:239-266 | A stored ticket keeps all but perhaps its instruction, which is the given one exactly while nothing is published. |
| `TicketRecords.ExitCodeIs` | harness/src/multi/driver.ts:350-361 | The code is 0 exactly if everything was published or the first repository that was not was declined, otherwise 1. |
| `TicketCrashes.ForgottenIffCutBeforeItsSave` | harness/src/multi/driver.ts:327-350 | Over every history of runs without duplicate names, and every attempt in it whose outcome is published: some continuation by runs of that ticket that the driver accepts attempts that repository again if and only if the run was cut between the attempt and its save. |
| `TicketCrashes.UnderAnotherIffNothingPublished` | harness/src/multi/driver.ts:109-118 | After every history that ends with an attempt, some continuation by accepted runs of that ticket repeats it under another instruction if and only if the stored file shows nothing published. |
| `TicketCrashes.HistoryGoesByTheFile` | harness/src/multi/driver.ts:239-266 | Every attempt of every history is made under the instruction the file held then. |
| `TicketCrashes.CrashForgetsAnAttempt` | harness/src/multi/driver.ts:327-350 | A history of two runs in which a repository is published, forgotten, and published again under another instruction. |
| `UserQueue.UserQueue.Push` | harness/src/spine/session.ts:74-80 | A push before the end is taken and reaches the oldest waiter or the buffer; the k-th call gets the k-th accepted push. |
| `UserQueue.UserQueue.End` | harness/src/spine/session.ts:82-89 | Every waiter is told that nothing will come; what was promised stays. |
| `UserQueue.UserQueue.Next` | harness/src/spine/session.ts:91-105 | The call gets the push with its number, waits for it, or is told that there is none; there are never both a buffered item and a waiter. |

## Left out

- PublishServer.EveryPushIsApproved: the reviewer consult ends in a task of its own even if the signal fires meanwhile, so the model allows more runs than the program; the containment checks of worktree paths, the git reads and the handler's own exceptions are arbitrary readings.
- PublishSerial.SerialIffNoStaleRelease: the connection callbacks are functions on one server value, because tasks of several connections interleave; object identity is not modelled.
- DecideJobs.TaskOutcome: the promises of `decide()` are fields of a value and their reactions jobs in a queue; only the reactions `decide()` itself creates are in it.
- LockProtocol.MutualExclusion: processes interleave on one shared value; pids are never reused, and a file that cannot be parsed is one whose pid is not yet written.
- DiffRoundTrip.ParseUndoesPrintIff: mode strings are digits and texts are sequences of Unicode scalar values; combined diffs and `GIT binary patch` bodies are not printed.
- DiffParser.ParseUnifiedDiff: numbers are unbounded, where the program's lose precision beyond 2^53.
- GitPath.RawQuotingDecodesIff: lone surrogates in the input are not representable here.
- SpineExecutor.StepKeepsSound: `createExecutor`'s closure variables and the awaits inside an action are one state value, because dispatches, crashes and HEAD moves interleave; each repository has its own worktree, and the commit-message counter is not modelled.
- SpineLedger.LoadUndoesPersistIff: a ledger is compared field by field; JSON text and the atomic replacement of the file are not modelled.
- PollRuns.BrowsersAgree: a request and its reply are two steps; connection failures end the poll with nothing shown, and the time stamps and title fields have no constraint.
- TicketDriver.PublishedForGood: is about recorded outcomes, so a push whose pull request could not be opened counts as failed and is repeated; the workspace's ticket pattern is not modelled; a state file that cannot be read, which the program ignores, does not occur, and a failing setup or plan is a run cut short there.
- Orchestrator.RunOrchestrator: steps that throw end the run and are the driver's "failed" outcome.
- The second and third copies of the connection machine (`harness/src/workerd/server.ts`, `reviewer/src/server.ts`).
- Model steps, prompts, triage and the reviewer's model call: arbitrary typed results.
- HTML, markdown, themes, DOM wiring, HTTP authentication, configuration and argument parsing, telemetry: checks and rendering without shared state.
- The parser's copy inside `serve/src/assets/app.js`: the same algorithm as `serve/src/diff.ts`.
