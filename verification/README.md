# Loxaic client logic, modelled and proved

A Dafny model of the parts of the Loxaic mobile and desktop clients that decide rather than render.
One module for each component:

- `LineDiff`, `ChangedFiles`: the line diff of a file change, and the per-file summary of a run.
- `HistoryPages`, `MergePlaces`, `MergeConfluence`, `PageOrders`: stored pages merged into a thread by
  position; where each message goes; and whether the order pages arrive in matters, for two of them and
  for any number.
- `OlderMessages`, `ThreadContents`: the scroll-back cursor over whole runs, with live messages and
  unsent bubbles; and where each message on screen comes from.
- `MonitorCore`, `MonitorTrace`, `Monitor`, `MonitorRuns`: the connection monitor's reducer, what any
  events leave and ask for, its controller with timers, probes in flight and a clock, and its whole runs.
- `ResumableStreams`, `FollowedRuns`, `DeferredTracking`: cursors, gaps and resyncs over a channel that
  loses, repeats and reorders; which run is followed; and the ref that names it, which is written later
  than it is decided.
- `AgentRunState`: each agent conversation's run, and how messages are routed to its record.
- `ExecutorSync`: the desktop's promise chain that keeps one executor child in line with its inputs.
- `DataUri`, `TokenKeys`, `OptionRows`, `ContextStages`: codecs and validators.

`Prelude` holds what they share. Code that updates variables is modelled by classes and loops, each
proved equal to a specification function; what the code is for is proved about those functions, over
every input and every run. Promises, sockets, timers, the clock and the server are actions or
parameters chosen freely by whoever quantifies over a run.

Run `dafny verify dfyconfig.toml` here.

## What the proofs found

Where a property is false of the code, the model keeps the code, a lemma gives inputs that show it,
and another says exactly when the property holds.

- Pages merged in different orders can leave an unsent bubble that leads the thread in different places
  (`MergeIsConfluent`, `PagesInAnyOrderExactlyWhen`, `LeadingBubbleIsNotConfluent`).
- A bubble sent to a thread the cache painted goes when the newest page arrives
  (`SentStaysExactlyWhen`).
- A bubble given its stored id after the newest page brought that message is shown twice
  (`PromotionCanDouble`, `NothingTwiceExactlyWhen`).
- A finished run's snapshot moves its messages but not its cursor, and a run without a cursor, fresh
  or known only from a finished snapshot, takes any event whatever its number. Either way a late event
  can be applied twice (`LateEventIsAppliedTwice`, `LateEventAfterCatchUp`, `InStepExactlyWhen`).
- Handlers decide by the ref that names the run being followed, which a state updater writes. If React
  runs the updater later, a rewind can leave a removed run followed, and an older run's catch-up can
  end the following of a live one (`RewindBeforeLanding`, `CatchUpBeforeLanding`,
  `DeferralIsInvisibleExactlyWhen`).
- Closing an answered approval leaves a run awaiting an approval nobody holds, until a later message
  about the run (`ClearApprovalCoherence`, `ClearedApprovalIsRepaired`).
- A sync queued behind a job whose own error handler threw is skipped; only a start can be lost this
  way, never a sign-out (`SignInCanBeSwallowed`, `DrainRunsExactlyWhen`, `SignOutStopsEverything`).
- A start whose first state report throws leaves a child no variable refers to. It survives a sign-out,
  and the next start makes two (`TwoChildrenCanRun`, `SignOutStopsAllExactlyWhen`,
  `TwoChildrenExactlyWhen`).
- The comment above the key escaper calls it injective. It is not: an underscore is left as it is, and
  units from 0x100 take more than two digits (`SecureKeyReversesWhen`, `OthersShare`, `SlotsCollide`).
- An edited file whose name ends in the new-file mark is counted under a shorter name
  (`HeaderRecoversPath`, `MarkedNameIsCountedShort`).
- A character beyond the basic plane in an unencoded data URI becomes two replacement characters
  (`PlainTextIsUtf8`). White space in base64 makes the foretold size too large, never too small
  (`SizeIsExactWhen`).
- Suggested stages of a model trained on fewer than 1024 tokens can repeat; many such models are fine
  (`SmallModelsCollide`, `SuggestionsPassUnlessTheyCollide`).

## Model

| member | source | states |
|---|---|---|
| `LineDiff.LcsIsLongest` | apps/mobile/lib/diff.ts:14-21 | A table cell is the length of a longest common subsequence of the two suffixes: one of that length exists, none is longer, and it is at most the shorter suffix. |
| `LineDiff.CellFits` | apps/mobile/lib/diff.ts:4-21 | Within the 250,000-cell budget every cell is at most 500, so adding one never wraps an unsigned 32-bit element. |
| `LineDiff.FillTable` | apps/mobile/lib/diff.ts:14-21 | The nested loops leave every cell holding the subsequence length of its suffixes. |
| `LineDiff.LcsDiff` | apps/mobile/lib/diff.ts:11-41 | Fill and backtrace together return the greedy script, deletions before additions where both keep as much. |
| `LineDiff.ScriptIsEditScript` | apps/mobile/lib/diff.ts:23-40 | Dropping additions gives the old lines, dropping deletions the new ones, and exactly the top-left cell's number of lines is kept. |
| `LineDiff.ScriptIsMinimal` | apps/mobile/lib/diff.ts:23-40 | No edit script between the two files has fewer added and deleted lines. |
| `LineDiff.DeletionsComeFirst` | apps/mobile/lib/diff.ts:29-38 | No addition is directly followed by a deletion: of equally good scripts the one that deletes first. |
| `LineDiff.ComputeLineDiff` | apps/mobile/lib/diff.ts:47-61 | The diff shown for a created, deleted, too large or edited file. |
| `LineDiff.DiffRebuildsBothFiles` | apps/mobile/lib/diff.ts:47-61 | The two sides, joined, are the two contents exactly when the change was not too large to diff, and the diff is then minimal. |
| `LineDiff.NetLines` | apps/mobile/lib/diff.ts:47-61 | Adds minus dels is the change in line count. |
| `LineDiff.LinesHoldNoBreak` | apps/mobile/lib/diff.ts:47-61 | The lines of a file hold no line break, so with what joins them they are its lines and nothing else. |
| `LineDiff.OnlyLargeEditsAreNoted` | apps/mobile/lib/diff.ts:47-61 | A note replaces the diff exactly for an edit whose line counts multiply to more than 250,000, and it gives both. |
| `ChangedFiles.HeaderRecoversPath` | apps/mobile/lib/streamMessages.ts:158-169 | A diff header is read back as its file's path exactly when the path is one non-empty line that, for an edited file, does not end in the new-file mark. |
| `ChangedFiles.HeaderForms` | apps/mobile/hooks/useAgentSession.ts:1325-1347 | The three header forms of a plain path read as it, with the mark or without; nothing that starts otherwise is a header. |
| `ChangedFiles.MarkedNameIsCountedShort` | apps/mobile/hooks/useAgentSession.ts:1325-1347 | The exception is real: the lines of an edited file whose name ends in the mark are counted under the name without it, and none under its own. |
| `ChangedFiles.ComputeChangedFiles` | apps/mobile/hooks/useAgentSession.ts:1325-1347 | The loops return one entry per path with the counts of the scan, in the order the thread first reads the paths. |
| `ChangedFiles.CountsOfThread` | apps/mobile/hooks/useAgentSession.ts:1325-1347 | For every thread a path's adds are the added lines, and its dels the deleted ones, of the changes whose headers read as it. |
| `ChangedFiles.FewestLinesCounted` | apps/mobile/hooks/useAgentSession.ts:1325-1347 | For a change diffed line by line adds and dels together are the fewest any edit script has. |
| `ChangedFiles.PathsByAppearance` | apps/mobile/hooks/useAgentSession.ts:1325-1347 | The paths listed are exactly those some header reads as, once each, by where they are first read. |
| `ChangedFiles.NetOfThread` | apps/mobile/hooks/useAgentSession.ts:1325-1347 | For every thread, a path's adds minus dels are the lines added by the changes whose headers read as it, however they are spread over files, tool calls and messages. |
| `ChangedFiles.SummaryTelescopes` | apps/mobile/hooks/useAgentSession.ts:1325-1347 | Over any chain of versions of a path, interleaved with any other changes, adds minus dels is last line count minus first, as long as the headers that read as that path are its own. |
| `HistoryPages.SortIsStable` | apps/mobile/lib/historyPages.ts:55-57 | Sorting a page by position keeps the arrival order of equal positions. |
| `HistoryPages.FlushUpTo` | apps/mobile/lib/historyPages.ts:59-62 | The inner loop emits exactly the sorted messages that do not sort after the limit. |
| `HistoryPages.WalkLoaded` | apps/mobile/lib/historyPages.ts:72-76 | The pass over the loaded messages equals the recursive walk. |
| `HistoryPages.EmitOne` | apps/mobile/lib/historyPages.ts:72-76 | One turn of that pass: what sorts before the loaded message, the message, and after the last positioned one the rest of the page; what remains is the walk from the next message on. |
| `HistoryPages.MergeHistory` | apps/mobile/lib/historyPages.ts:46-78 | The whole merge, with its three early returns, equals its specification. |
| `HistoryPages.MergeConserves` | apps/mobile/lib/historyPages.ts:46-78 | The result is the loaded thread, in its own order, shuffled with exactly the page messages not already loaded by id. |
| `HistoryPages.MergeKeepsOrder` | apps/mobile/lib/historyPages.ts:46-78 | Merging positioned messages into a sorted thread leaves it sorted exactly when the thread had a position to merge by or the page came sorted. |
| `MergePlaces.IncomingIsWhatIsNew` | apps/mobile/lib/historyPages.ts:46-49 | A merge takes from a page exactly its messages without an id or whose id is not loaded, each once, in order. |
| `MergePlaces.MergePutsLoaded` | apps/mobile/lib/historyPages.ts:55-78 | A loaded message ends up behind the loaded ones before it and exactly the new ones that pass it: those not after the first placed message, or not after some placed one up to it, or any once no placed one is left. |
| `MergePlaces.MergePutsNew` | apps/mobile/lib/historyPages.ts:55-78 | A new message ends up behind the new ones sorted before it and exactly the loaded ones it does not pass. |
| `MergePlaces.EveryNewHasAPlace` | apps/mobile/lib/historyPages.ts:55-78 | What passes one loaded message passes every later one, so each new message has such a place. |
| `MergePlaces.EveryLoadedHasAPlace` | apps/mobile/lib/historyPages.ts:55-78 | And the new messages that pass a loaded one are the first so many of the page in order. |
| `MergePlaces.OtherwiseInFront` | apps/mobile/lib/historyPages.ts:50-54 | With no position loaded, or a new message without one, what is new goes in front as it came. |
| `MergeConfluence.WalkTwice` | apps/mobile/lib/historyPages.ts:72-76 | Two walks, one after the other, are one walk with both runs zipped together. |
| `MergeConfluence.MergeIsConfluent` | apps/mobile/lib/historyPages.ts:46-83 | Two disjoint pages give the same thread in either order exactly unless an unsent bubble leads a thread with positions and both pages reach behind it. |
| `MergeConfluence.LeadingBubbleIsNotConfluent` | apps/mobile/lib/historyPages.ts:63-71 | The exception is real: with a bubble in front, two pages of one older message each leave it in different places. |
| `PageOrders.PagesInAnyOrderExactlyWhen` | apps/mobile/lib/historyPages.ts:46-83 | Any number of pairwise disjoint pages make the same thread in every order exactly unless two of them reach behind an unsent bubble that leads a thread with positions. |
| `PageOrders.FencesStayApart` | apps/mobile/lib/historyPages.ts:59-77 | Once two orders have left that bubble at different positions, no further pages bring it back to one place. |
| `OlderMessages.Hook.Record` | apps/mobile/hooks/useOlderMessages.ts:26-28 | A page's cursor is recorded for its conversation and no other changes. |
| `OlderMessages.Hook.LoadOlder` | apps/mobile/hooks/useOlderMessages.ts:30-35 | A read starts exactly when a cursor is known and none is in flight for that conversation; the cursor sent is returned. |
| `OlderMessages.Hook.OlderFailed` | apps/mobile/hooks/useOlderMessages.ts:41-45 | A failed read puts back the cursor it was asked with. |
| `OlderMessages.Hook.OlderSettled` | apps/mobile/hooks/useOlderMessages.ts:46-48 | Settling allows the next read of that conversation. |
| `OlderMessages.Hook.HasOlder` | apps/mobile/hooks/useOlderMessages.ts:55-58 | Older history is reported exactly when the ref holds a cursor. |
| `OlderMessages.MergeCounts` | apps/mobile/lib/historyPages.ts:46-83 | For each id a merge keeps the loaded copies and adds the page's only when there was none. |
| `OlderMessages.CursorTellsTheTruth` | apps/mobile/hooks/useOlderMessages.ts:26-51 | Over every run of newest-page loads, scroll-backs, failures, renders, live rows, late starts, snapshots, bubbles and promotions: every stored message from the recorded cursor to the end of the newest page is on screen, a null cursor means all of it, one read at most is in flight, and nothing is shown twice unless a promotion doubled it. |
| `OlderMessages.NothingTwiceExactlyWhen` | apps/mobile/hooks/useChatSession.ts:457-470 | Over every run, each message is on screen at most once at every moment exactly when no bubble still on screen is given the id of a message on screen already. |
| `OlderMessages.PromotionCanDouble` | apps/mobile/hooks/useChatSession.ts:457-470 | That happens: a bubble sent while the newest page loads, the page with its stored row, then the promotion. |
| `OlderMessages.LiveKeepsInv` | apps/mobile/lib/streamMessages.ts:368-432 | Live messages, starts heard late, bubbles, promotions, and a run's snapshot placed by position or left to scroll-back when older than what is loaded, take no stored message off the screen and keep every cursor true. |
| `OlderMessages.NewestKeepsInv` | apps/mobile/hooks/useChatSession.ts:419-446 | Applying the newest page around whatever got there first, and recording its cursor, keeps that truth. |
| `OlderMessages.ScrollBackMovesBack` | apps/mobile/hooks/useOlderMessages.ts:30-51 | A completed scroll-back moves the cursor to an older row, or ends it when the start of history is reached, and shows nothing twice that was not. |
| `ThreadContents.CachedThreadBecomesPage` | apps/mobile/lib/historyPages.ts:80-107 | When the newest page reaches a thread from the cache, however it was used meanwhile, the screen is that page; from then on every message is a stored row as stored or was sent after it. |
| `ThreadContents.PageIsItsRows` | apps/mobile/lib/historyPages.ts:80-107 | A page is its shown rows in order, each with its own id, position and text. |
| `ThreadContents.EmptyThreadIsGenuine` | apps/mobile/lib/historyPages.ts:80-107 | A thread that starts empty only ever shows stored rows as stored, and what was sent. |
| `ThreadContents.SentStaysExactlyWhen` | apps/mobile/lib/historyPages.ts:80-107 | An unsent bubble survives the newest page exactly when the thread was not from the cache. |
| `ThreadContents.NewestPageOrNothing` | apps/mobile/hooks/useChatSession.ts:419-446 | An empty newest page changes nothing, and an empty thread becomes the page. |
| `ThreadContents.OpeningAsksOnce` | apps/mobile/hooks/useChatSession.ts:414-454 | A thread is read once when opened, and again when that read failed. |
| `ThreadContents.SnapshotPlaces` | apps/mobile/lib/streamMessages.ts:368-398 | A snapshot replaces the first message with the row's id, or goes right before the first message placed after it, unless it is before everything placed while older history is unloaded. |
| `ThreadContents.StartPlaces` | apps/mobile/lib/streamMessages.ts:402-431 | A message start gives the first message with its id a position if it has none, or goes last. |
| `ThreadContents.NewestGoLast` | apps/mobile/lib/streamMessages.ts:402-431 | What is sent, and what starts live as it is stored, goes last. |
| `ThreadContents.PromotionRenames` | apps/mobile/hooks/useChatSession.ts:457-470 | A promotion gives the bubble the stored id and leaves its place, its text and every other message. |
| `ThreadContents.LoadingExactlyWhen` | apps/mobile/hooks/useOlderMessages.ts:30-51 | Over every run the thread says it is loading exactly while a read of an older page has neither been answered nor failed. |
| `ThreadContents.FailedReadCanRetry` | apps/mobile/hooks/useOlderMessages.ts:41-48 | After a failed read the same cursor is asked for again. |
| `MonitorCore.BackoffSchedule` | apps/mobile/lib/connectionMonitorCore.ts:51-54 | The backoff is 1, 2, 4, 8 s, then 10 s for ever. |
| `MonitorCore.LifecycleAlternates` | apps/mobile/lib/connectionMonitorCore.ts:109-116 | Any sequence of app states yields strictly alternating backgrounds and resumes. |
| `MonitorCore.LifecycleTellsTheTruth` | apps/mobile/lib/connectionMonitorCore.ts:109-116 | After any app states what the monitor last heard is where the app is; inactive says nothing. |
| `MonitorCore.FailuresAreCounted` | apps/mobile/lib/connectionMonitorCore.ts:149-204 | After any events failedProbes is the number of accepted failed probes since the last answer, open socket, reset or stop, and the server is failing exactly when it is positive. |
| `MonitorCore.OfflineIsEarned` | apps/mobile/lib/connectionMonitorCore.ts:296-307 | Offline is derived exactly when running with at least three such failures; online exactly when stopped, or answered with every socket open. |
| `MonitorTrace.EffectsAreExactly` | apps/mobile/lib/connectionMonitorCore.ts:138-293 | For every state and event the effects asked for are exactly those called for, each once: sockets are replaced on a retry, a resume that finds some, an accepted answer that finds one closed, an accepted failure that finds one open; the next probe is due after 25 s or the backoff of the new count; the session is checked on a socket refused for it. |
| `MonitorTrace.SocketsAre` | apps/mobile/lib/connectionMonitorCore.ts:219-265 | A socket has a status exactly when an event gave it that, by a report or a resume, and none since changed it or let it go. |
| `MonitorTrace.ServerIs` | apps/mobile/lib/connectionMonitorCore.ts:149-204 | The server answers exactly when an answer, an accepted good probe or an open socket said so since the last failure, reset or stop. |
| `MonitorTrace.SilenceIs` | apps/mobile/lib/connectionMonitorCore.ts:162-165 | A grace lasts exactly while one given since the last stop is not over. |
| `MonitorTrace.ReplacedCarriesOn` | apps/mobile/lib/connectionMonitorCore.ts:219-240 | A connecting socket let go of and tracked again within 50 ms keeps when it began and gets no new grace; any later it is a new one. |
| `MonitorTrace.AttemptBegan` | apps/mobile/lib/connectionMonitorCore.ts:219-240 | A tracked socket reported connecting again keeps when its attempt began, and a new attempt begins then. |
| `MonitorTrace.ShownExactlyWhen` | apps/mobile/lib/connectionMonitorCore.ts:296-308 | After any events and at any moment each of online, offline, resuming and reconnecting is shown exactly when the events say so. |
| `Monitor.Controller.RunEffect` | apps/mobile/lib/connectionMonitor.ts:43-78 | Each effect arms its timer or sends its probe and nothing else. |
| `Monitor.Controller.Dispatch` | apps/mobile/lib/connectionMonitor.ts:36-41 | Reduce, publish and run the effects in order, with reconnect listeners reporting in the middle. |
| `Monitor.Controller.Start` | apps/mobile/lib/connectionMonitor.ts:88-120 | Starting is idempotent. |
| `Monitor.Controller.Stop` | apps/mobile/lib/connectionMonitor.ts:122-127 | Stopping clears every timer before the reducer hears of it. |
| `Monitor.Controller.OnProbeSettled` | apps/mobile/lib/connectionMonitor.ts:45-55 | A settled probe reports once, with the epoch it was sent in. |
| `Monitor.Controller.OnProbeTimer` | apps/mobile/lib/connectionMonitor.ts:56-62 | The one probe timer is forgotten before it dispatches. |
| `Monitor.Controller.OnTick` | apps/mobile/lib/connectionMonitor.ts:63-70 | A tick timer leaves the set before it dispatches. |
| `Monitor.Controller.OnAppState` | apps/mobile/lib/connectionMonitor.ts:91-102 | An app-state change dispatches what it means, and going to the background drops the probe timer afterwards. |
| `Monitor.NeverGoesQuiet` | apps/mobile/lib/connectionMonitor.ts:36-127 | After every step of every run: running in the foreground implies an unanswered current-epoch probe or an armed current-epoch probe timer; never two current probes; probeInFlight says exactly whether there is one. |
| `Monitor.StuckSocketsHaveATick` | apps/mobile/lib/connectionMonitorCore.ts:211-271 | Every tracked socket connecting for under 3 s has a tick armed for exactly its since plus 3000, across untracking, re-tracking and resumes. |
| `Monitor.TickProbesStuckSocket` | apps/mobile/lib/connectionMonitorCore.ts:211-217 | When that tick runs in the foreground of a running monitor, exactly one current probe is unanswered. |
| `Monitor.OldEpochsNeverMatter` | apps/mobile/lib/connectionMonitorCore.ts:178-209 | Whatever probes and probe timer of earlier epochs are outstanding, and however they settle during the run, state, ticks, current timer and current probes are as if they had never been. |
| `Monitor.PublishedOfflineIsEarned` | apps/mobile/lib/connectionMonitor.ts:32-41 | What is published as offline over whole controller runs is exactly three or more earned failures while running. |
| `MonitorRuns.SocketsReplacedExactlyWhen` | apps/mobile/lib/connectionMonitor.ts:36-78 | In every run the reconnect listeners are told at exactly the dispatched events that call for it. |
| `MonitorRuns.AnswerSparesConnecting` | apps/mobile/lib/connectionMonitorCore.ts:187-194 | An answered probe never replaces a socket while none is closed. |
| `MonitorRuns.ResultsArmTheirWait` | apps/mobile/lib/connectionMonitorCore.ts:183-209 | In every run an accepted result in the foreground arms the next probe for 25 s, or for the backoff of the failures since the last good evidence. |
| `MonitorRuns.ActionsAreHeard` | apps/mobile/lib/connectionMonitor.ts:45-127 | Each action dispatches the event it means, then and there, or changes nothing. |
| `MonitorRuns.TimersGo` | apps/mobile/lib/connectionMonitor.ts:91-127 | Stopping leaves no timer and the background no probe timer. |
| `MonitorRuns.PublishedExactlyWhen` | apps/mobile/lib/connectionMonitor.ts:32-41 | In every run what is published is what the events dispatched so far say, as of the last. |
| `ResumableStreams.FollowedRunsAreInStep` | apps/mobile/hooks/useChatSession.ts:719-834 | Once a run had an active snapshot and no finished one since, its messages equal the server log folded to the cursor, under any loss, repetition and reordering. |
| `ResumableStreams.TrackedRunsAreInStep` | apps/mobile/hooks/useAgentSession.ts:555-621 | With updaters run at once, in every reachable state the run each conversation follows is exactly its log up to the cursor a resume would send, and is no removed run. |
| `ResumableStreams.CatchUpLeavesFollowedRun` | apps/mobile/hooks/useChatSession.ts:769-778 | Through any number of other runs' snapshots, finished ones of the same conversation among them, events, ends and rewinds, the run being followed keeps its tracking, cursor, messages and cooldown. |
| `ResumableStreams.GapRequestsAreSpaced` | apps/mobile/hooks/useChatSession.ts:814-832 | Two gap requests for one stream are more than 500 ms apart, whatever the clock does. |
| `ResumableStreams.GapIsAskedFor` | apps/mobile/hooks/useAgentSession.ts:606-619 | After any messages, an event out of order changes no message and no cursor, and with a socket the stream is asked for from exactly the cursor now, or was asked for within the cooldown. |
| `ResumableStreams.ResyncRecovers` | apps/mobile/hooks/useChatSession.ts:779-834 | An active snapshot followed by the rest of the log in order, mixed with anything else, shows the whole log. |
| `ResumableStreams.LeavesStepExactlyWhen` | apps/mobile/hooks/useChatSession.ts:769-834 | For a fold that keeps every event, a message leaves the screen out of step exactly when it is a finished snapshot not at the cursor, or an event of a run with no cursor that is not the one after what is on screen. |
| `ResumableStreams.InStepExactlyWhen` | apps/mobile/hooks/useChatSession.ts:719-834 | Over any run of authentic messages, a stream with a cursor always shows its log up to it exactly when no finished snapshot comes away from the cursor and no event comes without a cursor but the one after those on screen. |
| `ResumableStreams.LateEventIsAppliedTwice` | apps/mobile/hooks/useChatSession.ts:769-834 | A late event after a finished snapshot is applied a second time: a concrete run. |
| `ResumableStreams.LateEventAfterCatchUp` | apps/mobile/hooks/useChatSession.ts:769-834 | So is the first event of a run known only from a finished snapshot, when it arrives late: a concrete run. |
| `FollowedRuns.FollowedExactlyWhen` | apps/mobile/hooks/useChatSession.ts:719-979 | After any messages a conversation follows a stream exactly when an active snapshot of it, not removed by then, came for it, and since then no other active snapshot, no end, no finished snapshot of the stream and no rewind that removes it. |
| `FollowedRuns.SettledExactlyWhen` | apps/mobile/hooks/useChatSession.ts:352-376 | The same of the ref once updaters have run, when no message misread it. |
| `FollowedRuns.RemovedRunsAreGone` | apps/mobile/hooks/useChatSession.ts:969-976 | A removed run has no cursor and no message from then on, however late its own messages come. |
| `FollowedRuns.RequestsAreForGaps` | apps/mobile/hooks/useChatSession.ts:814-832 | Every request was made by an event out of order, from the cursor at that moment. |
| `DeferredTracking.Handler.OnSync` | apps/mobile/hooks/useChatSession.ts:719-809 | A snapshot replaces the run's messages; an active one sets the cursor and passes an updater that follows the run; a finished one passes one that stops following, unless the ref names another run. |
| `DeferredTracking.Handler.OnEvent` | apps/mobile/hooks/useChatSession.ts:810-834 | An event is taken in order or before any cursor; out of order it is dropped, with a rate-limited request. |
| `DeferredTracking.Handler.OnEnd` | apps/mobile/hooks/useChatSession.ts:913-934 | The end of a stream passes an updater that stops following it and touches no cursor. |
| `DeferredTracking.Handler.OnRewound` | apps/mobile/hooks/useChatSession.ts:969-979 | Removed runs lose their cursor and messages and are ignored from then on; an updater stops the following of a run if the ref names a removed one. |
| `DeferredTracking.Handler.RunUpdater` | apps/mobile/hooks/useChatSession.ts:352-376 | Running the next updater writes the ref, and nothing else. |
| `DeferredTracking.DeferralOnlyTouchesTracking` | apps/mobile/hooks/useChatSession.ts:719-979 | Whenever updaters run, cursors, messages, requests and removed runs are what they would be if they ran at once. |
| `DeferredTracking.DeferralIsInvisibleExactlyWhen` | apps/mobile/hooks/useChatSession.ts:769-809 | Over any run, what is followed once updaters have run is always what it would be had they run at once, exactly when no finished snapshot and no rewind decides by a ref that says otherwise than what is settled. |
| `DeferredTracking.SettledRunsAreInStep` | apps/mobile/hooks/useAgentSession.ts:555-621 | And then, with no updater waiting, each run the ref names shows its log up to the cursor a resume would send, and is no removed run. |
| `DeferredTracking.RewindBeforeLanding` | apps/mobile/hooks/useChatSession.ts:969-979 | A rewind heard before the updater of the run it removes leaves that run followed, with no cursor: a concrete run. |
| `DeferredTracking.CatchUpBeforeLanding` | apps/mobile/hooks/useChatSession.ts:769-778 | An older run's finished snapshot, heard before the updater of a live run, ends the following of it: a concrete run. |
| `AgentRunState.LevelsStayCoherent` | apps/mobile/lib/agentRunState.ts:93-250 | After any sequence of snapshots, events, ends, rewinds, answers, promotions and deletions: awaiting approval holds an approval, awaiting a check-in holds one, queued has a position, done or error holds neither prompt. |
| `AgentRunState.ClearApprovalCoherence` | apps/mobile/hooks/useAgentSession.ts:1102-1106 | The hook's local close of a prompt breaks coherence exactly when it closes the approval being waited for. |
| `AgentRunState.ClearedApprovalIsRepaired` | apps/mobile/lib/agentRunState.ts:128-238 | Exactly which next update repairs it. |
| `AgentRunState.OwnFoldOnly` | apps/mobile/lib/agentRunState.ts:65-84 | In any interleaving a conversation's record is the fold of its own updates alone, and exists exactly when one of them made it. |
| `AgentRunState.RecordIsWhatWasTold` | apps/mobile/lib/agentRunState.ts:65-84 | When only updates name a conversation, its record is what its own updates tell, one after another. |
| `AgentRunState.PromotionCarries` | apps/mobile/lib/agentRunState.ts:240-250 | A placeholder promoted at any point carries its fold to the real id, unless the real id was heard from first, when its own fold stands. |
| `AgentRunState.ApprovalIsTheOneAsked` | apps/mobile/lib/agentRunState.ts:128-184 | For every sequence of updates, live or not: an approval is held exactly when one of them asked for it and none since replaced, answered or withdrew it. |
| `AgentRunState.ApprovalOnScreen` | apps/mobile/lib/agentRunState.ts:65-238 | So in any interleaving over any conversations, of a conversation's own updates. |
| `AgentRunState.CheckinIsTheOneAsked` | apps/mobile/lib/agentRunState.ts:93-238 | A check-in is held exactly when an update asked it, naming its run, and none since asked again, answered it, ended the run, removed that run or was a snapshot taken afresh. |
| `AgentRunState.CountersAreTheLastSaid` | apps/mobile/lib/agentRunState.ts:93-238 | For every sequence of updates, step counter and queue position are each what the last update about them said. |
| `AgentRunState.StateIsWhatWasSaid` | apps/mobile/lib/agentRunState.ts:93-250 | After every sequence of updates a run is queued, running, awaiting an approval or a check-in, done or failed exactly when the updates say so: one put it there and none since took it out. |
| `AgentRunState.StateOnScreen` | apps/mobile/lib/agentRunState.ts:65-250 | The same in any interleaving over any conversations, by a conversation's own updates. |
| `AgentRunState.CountersStartEmpty` | apps/mobile/lib/agentRunState.ts:93-238 | A counter nothing has been said of is absent. |
| `AgentRunState.EmptyRewindKeeps` | apps/mobile/lib/agentRunState.ts:212-238 | A rewind that removes no run changes nothing. |
| `AgentRunState.DeletedStartsAgain` | apps/mobile/hooks/useAgentSession.ts:1177-1192 | A deleted conversation starts again from nothing, and no other is touched. |
| `AgentRunState.RewindDropsPrompts` | apps/mobile/lib/agentRunState.ts:212-238 | After a rewind no prompt names a removed run, and no prompt left is unnamed once the live run is cleared. |
| `AgentRunState.Session.OnSync` | apps/mobile/hooks/useAgentSession.ts:490-505 | A snapshot is stored unless its run was removed or a different run is followed. |
| `AgentRunState.Session.OnEvent` | apps/mobile/hooks/useAgentSession.ts:603-674 | A live event updates its conversation's record unless its run was removed. |
| `AgentRunState.Session.OnRewound` | apps/mobile/hooks/useAgentSession.ts:724-738 | A rewind marks its runs removed and withdraws their prompts. |
| `AgentRunState.Session.OnTurnStarted` | apps/mobile/hooks/useAgentSession.ts:517-529 | A turn that started moves its placeholder's record to the real id. |
| `AgentRunState.Session.HandleDelete` | apps/mobile/hooks/useAgentSession.ts:1177-1192 | A deleted conversation's record goes, and no other. |
| `AgentRunState.Session.HandleSteps` | apps/mobile/hooks/useAgentSession.ts:1140-1155 | An answered check-in closes and the run goes on. |
| `AgentRunState.SessionShowsWhatWasSaid` | apps/mobile/hooks/useAgentSession.ts:490-752 | Over a whole session state and approval are what the updates say that were not of a run removed before them. |
| `AgentRunState.RemovedRunsNeverAsk` | apps/mobile/hooks/useAgentSession.ts:507-752 | Over whole sessions no prompt names a run a rewind removed, however late that run's own messages arrive. |
| `ExecutorSync.MainProcess.HandleSetSession` | apps/desktop/src/main.js:907-911 | Signing in or out stores the trimmed token, or none, and asks for a sync. |
| `ExecutorSync.SessionIsTrimmed` | apps/desktop/src/main.js:907-911 | A session is what was given without the white space around it, and none exactly when that leaves nothing. |
| `ExecutorSync.MainProcess.SyncExecutor` | apps/desktop/src/main.js:581-585 | A stack change chains one more job. |
| `ExecutorSync.MainProcess.RunJob` | apps/desktop/src/main.js:634-649 | A job's body runs unless the chain is rejected: nothing when up to date, otherwise up to the wait for the previous child. |
| `ExecutorSync.MainProcess.OnStopSettled` | apps/desktop/src/main.js:648-697 | After the wait the job reads the inputs as they are then, and starts a child, says which input is missing, or fails. |
| `ExecutorSync.OneChildAtATime` | apps/desktop/src/main.js:627-698 | In every interleaving at most one child not lost is unstopped, a new one starts only when every earlier stop has settled, and none is lost exactly when no start so far had its first report throw. |
| `ExecutorSync.StepLoses` | apps/desktop/src/main.js:665-697 | A step loses a child exactly when it reaches a start, with the inputs there and nothing held, whose first report throws. |
| `ExecutorSync.TwoChildrenExactlyWhen` | apps/desktop/src/main.js:627-698 | Two children ever run at once exactly when one is started after an earlier start whose first report threw. |
| `ExecutorSync.TwoChildrenCanRun` | apps/desktop/src/main.js:665-697 | That happens: the first start's report throws and the next sync starts a second child: a concrete run. |
| `ExecutorSync.DrainedIsInLine` | apps/desktop/src/main.js:627-698 | Once drained, a live child was started for the current token and URL; with the payload there, it exists exactly when both are present, the last job's body ran and its start did not fail. |
| `ExecutorSync.DrainedSaysWhy` | apps/desktop/src/main.js:649-697 | Once drained the renderer is told the truth: a child reports, it could not be started, or which of session, server and payload is missing first. |
| `ExecutorSync.StepRejectsExactlyWhen` | apps/desktop/src/main.js:686-696 | The chain is rejected exactly by a handler that runs, because the chain was rejected, a start failed or saying why not threw, and throws itself. |
| `ExecutorSync.UnchangedSyncsDoNothing` | apps/desktop/src/main.js:628-643 | Any number of syncs with unchanged inputs starts and stops nothing. |
| `ExecutorSync.DrainEnds` | apps/desktop/src/main.js:634-698 | Draining always ends, keeps the inputs, and with no session starts nothing. |
| `ExecutorSync.SignOutStopsEverything` | apps/desktop/src/main.js:634-698 | From any reachable state, whatever fails, draining after a sign-out leaves no executor and every child not lost earlier stopped. |
| `ExecutorSync.SignOutStopsAllExactlyWhen` | apps/desktop/src/main.js:634-698 | Draining after a sign-out leaves every child stopped exactly when no earlier start had its first report throw. |
| `ExecutorSync.DrainRunsExactlyWhen` | apps/desktop/src/main.js:634-698 | From any reachable state with token, URL and payload, whatever throws, draining ends with an executor for them exactly when it runs already or one of the jobs left starts it: one whose start works and whose predecessor's handler did not throw. |
| `ExecutorSync.SignInStarts` | apps/desktop/src/main.js:634-698 | So a sync that is still to run, on an unrejected chain and with nothing thrown, always ends with an executor. |
| `ExecutorSync.SkippedOnlyWhenRejected` | apps/desktop/src/main.js:686-696 | The chain is rejected only while no executor is live. |
| `ExecutorSync.SignInCanBeSwallowed` | apps/desktop/src/main.js:686-696 | A sign-in queued behind a job whose error handler itself threw never runs: a concrete run. |
| `DataUri.ParseOf` | apps/mobile/lib/attachmentUpload.ts:66-69 | A data URI splits at its first comma, and is base64 exactly when what precedes it ends in the mark. |
| `DataUri.OthersDoNotParse` | apps/mobile/lib/attachmentUpload.ts:66-69 | Anything that does not start with data: or has no comma after it is no data URI. |
| `DataUri.Base64RoundTrip` | apps/mobile/lib/attachmentUpload.ts:121-124 | Decoding gives back the bytes encoded, with padding or without (section 4 of RFC 4648). |
| `DataUri.AcceptsExactlyWhen` | apps/mobile/lib/attachmentUpload.ts:121-124 | The decoder accepts exactly, without white space, characters of the alphabet in any number but one over whole quartets, perhaps with the padding that completes one. |
| `DataUri.AlphabetInOrder` | apps/mobile/lib/attachmentUpload.ts:121-124 | The alphabet is capitals, small letters, digits, plus and slash, in that order (section 4 of RFC 4648). |
| `DataUri.SizeIsExactWhen` | apps/mobile/lib/attachmentUpload.ts:71-85 | For every payload the decoder accepts the size is never under the decoded length, and equals it exactly when there is no white space, or one in whole quartets outside the padding. |
| `DataUri.PercentDecodeBytes` | apps/mobile/lib/attachmentUpload.ts:89-105 | The loop equals its recursive specification. |
| `DataUri.PercentDecodeInverts` | apps/mobile/lib/attachmentUpload.ts:89-105 | Of text below 0x80, decoding gives exactly the bytes it spells, for every encoding that escapes the bytes from 0x80 and each percent sign that would read as an escape. |
| `DataUri.EscapesAnywhere` | apps/mobile/lib/attachmentUpload.ts:89-105 | A percent sign and two digits are an escape wherever they stand. |
| `DataUri.HexDigitsAreThese` | apps/mobile/lib/attachmentUpload.ts:93-94 | Hexadecimal digits count in either case. |
| `DataUri.UnitReadsBack` | apps/mobile/lib/attachmentUpload.ts:98-102 | The bytes of a unit read back as it, or as the replacement character for a surrogate alone, in the fewest bytes. |
| `DataUri.PlainTextIsUtf8` | apps/mobile/lib/attachmentUpload.ts:96-102 | Text never encoded becomes its UTF-8 exactly when it holds no surrogate pair. |
| `DataUri.ReadUriBytes` | apps/mobile/lib/attachmentUpload.ts:116-137 | Bytes, a bad payload, an unreadable file, or one over the limit. |
| `DataUri.OutcomesExactlyWhen` | apps/mobile/lib/attachmentUpload.ts:116-137 | Each outcome is reached exactly when it should be, and the limit changes nothing but that what is over it is reported with its size. |
| `DataUri.SizeIsForDataUris` | apps/mobile/lib/attachmentUpload.ts:76-85 | A size is foretold for exactly the data URIs. |
| `DataUri.DataUriRoundTrip` | apps/mobile/lib/attachmentUpload.ts:66-137 | Any bytes under any media type read back as themselves, at the size foretold. |
| `DataUri.CheckAgreesWithRead` | apps/mobile/lib/attachmentUpload.ts:76-137 | A data URI the size check lets through is never too large when read. |
| `TokenKeys.SecureKeyIsAllowed` | apps/mobile/lib/auth.ts:81-83 | An escaped key has only characters SecureStore allows. |
| `TokenKeys.SecureKeyReversesWhen` | apps/mobile/lib/auth.ts:81-83 | The decoder recovers the key exactly when every unit is below 0x100 and no underscore is followed by the two lower-case digits of a unit that would be escaped. |
| `TokenKeys.OthersShare` | apps/mobile/lib/auth.ts:81-83 | No decoder does better: every other key shares its escaped form with a reversible one that is not it. |
| `TokenKeys.SlotsKeepServersApart` | apps/mobile/lib/auth.ts:21-24 | Two endpoints that reverse share a native slot exactly when they are equal but for trailing slashes. |
| `TokenKeys.TokenKeysKeepServersApart` | apps/mobile/lib/auth.ts:21-24 | On the web that holds for all endpoints. |
| `TokenKeys.NoSlotIsTheFlatOne` | apps/mobile/lib/auth.ts:6-24 | No endpoint shares the unscoped slot. |
| `TokenKeys.SlotsCollide` | apps/mobile/lib/auth.ts:81-83 | Outside the class two different servers can share a slot: two families of pairs. |
| `OptionRows.RowProblems` | apps/mobile/lib/extraOptions.ts:49-79 | The loop over the rows, with its map and set, equals its specification. |
| `OptionRows.RowIsPassedWhen` | apps/mobile/lib/extraOptions.ts:49-79 | Row by row, no problem exactly when the row is blank, or well named and, against the rows above, the only one to keep its stored unknown option or to give its settable option a good value. |
| `OptionRows.ProblemIsWhatIsSaid` | apps/mobile/lib/extraOptions.ts:49-79 | For every row and problem, that problem is shown exactly when the name, the option, the rows above and then the value call for it. |
| `OptionRows.ValueIsGoodExactlyWhen` | apps/mobile/lib/extraOptions.ts:71-76 | A value has no fault exactly when it is on one line and, trimmed, is true or false in any case for a switch, or is not blank for the rest. |
| `OptionRows.ValueProblemIs` | apps/mobile/lib/extraOptions.ts:71-76 | Which fault: more than one line first, then what a switch or an option with a value asks. |
| `OptionRows.CleanKeyMeans` | apps/mobile/lib/extraOptions.ts:20-23 | A clean key is the typed one without the white space around it and the dashes in front. |
| `OptionRows.KeysGrowTo64` | apps/mobile/lib/extraOptions.ts:25 | A name starts with a letter or digit and has at most 64 key characters. |
| `OptionRows.RepeatNamesTheFirst` | apps/mobile/lib/extraOptions.ts:68-70 | A second row for an option is told which key set it first. |
| `OptionRows.PassedRowsAreDistinct` | apps/mobile/lib/extraOptions.ts:49-84 | When all rows pass against a known list, saved keys are distinct and no two name one option by any alias. |
| `OptionRows.EveryRowIsSaved` | apps/mobile/lib/extraOptions.ts:81-84 | Every row that is not blank is saved behind those saved above it, its key clean and its value trimmed. |
| `OptionRows.SavingAgainKeeps` | apps/mobile/lib/extraOptions.ts:81-84 | Saving what was saved from well-named rows changes nothing. |
| `OptionRows.FindEntry` | apps/mobile/lib/extraOptions.ts:142-143 | The counting search returns the draft row that became the entry, or none. |
| `OptionRows.WithServerProblem` | apps/mobile/lib/extraOptions.ts:140-146 | A refusal is shown on that row only, when the rows are still those sent and the row has no problem of its own. |
| `OptionRows.RefusalLandsOnItsRow` | apps/mobile/lib/extraOptions.ts:127-146 | That row is the one that is not blank with exactly k saved rows above it, and it saves as entry k. |
| `OptionRows.PollsKeepTyping` | apps/mobile/lib/extraOptions.ts:115-119 | However many polls come, an edited draft is kept and an unedited one ends at the last. |
| `ContextStages.FactorIsTheRatio` | apps/mobile/lib/localModels.ts:381-387 | Unless pinned, the factor is the ratio of the context to the original one, the stage's own if it has one, to two decimals. |
| `ContextStages.FactorIsKnownExactlyWhen` | apps/mobile/lib/localModels.ts:381-387 | A pin is the factor; without one it is known exactly for a positive context and an original one. |
| `ContextStages.StageErrors` | apps/mobile/lib/localModels.ts:391-404 | The loop with its moving bound equals its specification. |
| `ContextStages.StagePassesWhen` | apps/mobile/lib/localModels.ts:391-404 | A stage has no error exactly when it is sound and above the standard context and every earlier stage without one. |
| `ContextStages.AllPassWhen` | apps/mobile/lib/localModels.ts:391-404 | No stage has an error exactly when they strictly increase above the standard context, are whole numbers from 512 to 2^31 - 1, and have a computable factor. |
| `ContextStages.ErrorIsWhatIsSaid` | apps/mobile/lib/localModels.ts:391-404 | Which error a stage is given, for every stage and error. |
| `ContextStages.AdminsContextRules` | apps/mobile/lib/localModels.ts:375-404 | A first stage passes exactly above the admin's context, or the trained one when none is set. |
| `ContextStages.SuggestStages` | apps/mobile/lib/localModels.ts:435-445 | The loop over factors equals its specification. |
| `ContextStages.StretchLimitIs` | apps/mobile/lib/localModels.ts:423-428 | The file's factor limits the suggestions when it is above 1, and otherwise 4 does. |
| `ContextStages.DefaultOffersEveryFactor` | apps/mobile/lib/localModels.ts:375-445 | With no context set, every factor from 2 to the largest is suggested for a trained context of at least 1024. |
| `ContextStages.SuggestionsPassExactlyWhen` | apps/mobile/lib/localModels.ts:423-445 | For every model and standard context the suggestions all pass exactly when each factor offered stretches the trained context to between 512 and 2^31 - 1, and to less than the next factor does. |
| `ContextStages.SuggestionsPassUnlessTheyCollide` | apps/mobile/lib/localModels.ts:423-445 | Unless the standard context is negative, that is exactly when no two neighbouring factors collide and the largest stretches to at most 2^31 - 1. |
| `ContextStages.SuggestionsAreNotSmall` | apps/mobile/lib/localModels.ts:435-445 | Unless the standard context is negative, every suggestion is at least 1024. |
| `ContextStages.SuggestionsPassWhen` | apps/mobile/lib/localModels.ts:423-445 | For a trained context of at least 1024 the suggestions all pass exactly when the largest is at most 2^31 - 1, despite rounding. |
| `ContextStages.SmallModelsCollide` | apps/mobile/lib/localModels.ts:435-445 | Below that they can collide: a trained context of 512 is offered 2048 twice. |

## Left out

- React rendering, effect scheduling, toasts, screens and Electron windows: only the order in which state updates land is modelled.
- Network calls, process calls, SecureStore and local storage: they are actions that may answer, fail or be late.
- `applyEventToMsgs` and the rest of the message fold: `ResumableStreams` holds for any fold whose snapshot at n is the fold of the first n events; the thread around a run's own messages is not in its view.
- Sub-agent streams, which share the cursor table: their events never reach a thread.
- Subscribing again on a new socket: it reads cursors and tracking and changes neither.
- Rewinds that race a scroll-back in flight, and `forgetRemoved`: what the server answers for a removed cursor is not visible here.
- JSON comparison of saved option lists: two lists of strings serialise alike exactly when they are equal, so lists are compared.
- Option order, hints and the wording of problems: a problem is a constructor carrying what its sentence names.
- Deadlines, tools, arguments and check notes of a pending prompt: they travel unchanged and nothing here decides by them.
- The `stopping` run state: it is shown by the hook and never stored in a record.
- Floating-point rounding: numbers in `ContextStages` are exact; the whole numbers involved are far below 2^53.
- Restarts of a child that dies by itself, and the quit handler: a child here is a handle that was started and perhaps stopped.
- What a running child reports after its first state: it is shown as its reports, whatever they say.
- The session check after a socket was refused: it is asked for exactly when it should be, and what it finds is not modelled.
- The tailnet sidecar's slots, whose callers are not serialised.
- Time passing inside one dispatch of the monitor, and reconnect listeners that report anything but their own sockets.
- The seam that resets the monitor for tests.
- Strings other than data URIs and token keys are sequences of Unicode scalar values, not UTF-16 units.
- AgentRunState.LevelsStayCoherent: leaves out the hook's local `clearApproval`, because that update is the incoherent one; `ClearApprovalCoherence` says exactly when.
- AgentRunState.RemovedRunsNeverAsk: takes from the server that each stream is addressed under one conversation and none under a placeholder.
- ResumableStreams.TrackedRunsAreInStep: takes from the server that each stream is addressed under one conversation, and takes updaters as run at once; `DeferredTracking` says what holds when they are not.
- DeferredTracking.SettledRunsAreInStep: takes from the server that each stream is addressed under one conversation.
- ExecutorSync.DrainedIsInLine: says nothing of a payload that disappears under a live executor, because an up-to-date sync does not look at it.
