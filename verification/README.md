# Terminal multiplexer: a verified model

The repository runs a terminal multiplexer inside a web server process: PTY-backed terminals with a
scrollback, browsers attached over sockets, a registry of workspaces, tabs and panes, and a detector that
publishes what the coding agent in a pane is doing.  Its hard parts are concurrent, so the first three groups
below are step relations in which every atomic operation or mutex section is one step, beside classes that do
the same updates in place and are proved to do what the steps do.

**Status detection** (`StatusProtocol`, `StatusSafety`, `StatusLiveness`, `StatusOutcomes`,
`StatusAcceptance`, `StatusEventOrder`, `StatusRuntime`).  The reader, the 100 ms sweeper and any number of
composer submits race over a throttle stamp, a pending flag, a sequence counter and a compare-and-set cache.
Ghost output versions say what each pass has seen. No status flip is lost, six ticks of silence bring the
report up to date, stale passes never win, a submit is refused exactly for an exited terminal or a blocked
report and otherwise pastes once. Events may overtake each other; a run shows it, and the one kind of step
that loses the order is characterised exactly.

**Attach and fan-out** (`Scrollback`, `AttachProtocol`, `AttachSafety`, `AttachStream`, `AttachResults`,
`FanOut`). One client's connection thread, its writer and the PTY reader share a channel and a byte counter.
The stream is a replay and then one contiguous run of chunks, the counter is exactly the backlog, and a writer
stops for one of four reasons.  The exit check in `subscribe` is modelled outside the lock, as it is in the
code; the one interleaving that loses the exit notice is exhibited and characterised.

**Registry** (`RegistryModel`, `RegistryIntegrity`, `RegistryMoves`, `RegistryRuns`, `RegistryCreates`,
`RegistrySections`, `RegistryOpen`, `RegistryListing`, `Registry`). Four maps and a focus triple under creates
in two sections, cascading closes, promotion and focus repair. `Registry.BuiltinState` updates the fields in
place.  The one way to end up without a focused workspace, and the one way to open a checkout twice, are
characterised exactly and exhibited.

**Supporting machines.** `OscTracker` and `OscGrammar` (the OSC byte tracker refines a grammar, section 8.3.89
of ECMA-48 plus the BEL terminator), `Sessions` and `SessionRuns` (the LRU session set and its revision),
`RateLimiter`, `Paging` and `PagingRuns` (cursors, the page cut, tiling under growth), `ProcessTree`,
`EventHub`, `LspFraming`, `LspRoundTrip` and `LspHeaders` (the Header Part of the LSP 3.17 Base Protocol),
`LspPending` (requests in flight, notifications).

`dafny verify dfyconfig.toml` checks everything.

Differences between the code and its comments, where the model follows the code: an event is published after
the cache lock is released, so the "latest report" clients hold may be older than the cached one
(`StatusEventOrder.EventsOvertake`); `authorized` asks at the end whether *any* session is still valid, not
whether the matched one is (`Sessions.PassesLapsedIff`); inside an OSC body `ESC BEL` does not terminate the
string, and `ESC ESC \` does not either (`OscGrammar.EscapeHidesTerminator`); the cursor of a page that opens
on a turn without an id is null, so everything older is out of reach (`PagingRuns.PagesCompleteIff`).

## Model

| member | source | states |
|---|---|---|
| `StatusLiveness.NoFlipLost` | `src/builtin_backend.rs:2503-2831` | In every reachable state of a live terminal whose reader is idle, the committed report was reserved after the latest output, or the pending flag is set, or the sweeper holds a pass that will cover it; while the reader is in its own pass, that pass will |
| `StatusLiveness.SixTicksSuffice` | `src/builtin_backend.rs:2503-2518` | After any history, once the reader falls silent and the sweeper has woken six times and gone back to sleep, the published report is the detector's verdict on all of the output |
| `StatusLiveness.FreshMeansCurrent` | `src/builtin_backend.rs:2946-3028` | A commit whose sequence was reserved after the latest output carries the detector's verdict on exactly that output |
| `StatusLiveness.SweeperMoves` | `src/builtin_backend.rs:2503-2518` | In every safe state of a live terminal the sweeper has an enabled action, at the latest after its 100 ms sleep |
| `StatusLiveness.RankStep` | `src/builtin_backend.rs:2503-2518` | Every action of the sweeper thread but a wake-up brings it strictly nearer its sleep, and no other thread's action changes the distance |
| `StatusLiveness.WakesBound` | `src/builtin_backend.rs:2503-2518` | Between two wake-ups the sweeper thread takes at most eleven actions, its detection pass included, however the others interleave |
| `StatusLiveness.SweeperCatchesUp` | `src/builtin_backend.rs:2503-2518` | So six ticks do happen: once output stops, 83 actions of the sweeper thread bring the report up to date by its next sleep |
| `StatusLiveness.ChecksApart` | `src/builtin_backend.rs:2796-2940` | Over any run the throttle stamp stays or moves on by at least 500 ms: reader and sweeper together never check more often |
| `StatusLiveness.SafeKept` | `src/builtin_backend.rs:2796-3031` | Each atomic action of reader, sweeper, submit and detection pass keeps the whole safety invariant |
| `StatusLiveness.SafeAlong` | `src/builtin_backend.rs:2796-3031` | The invariant holds after any interleaving |
| `StatusLiveness.QuietAlong` | `src/builtin_backend.rs:2503-2518` | While the reader is silent no version, exit flag or reader counter moves, and the tick count is the number of wake-ups |
| `StatusSafety.BaseKept` | `src/builtin_backend.rs:2946-3031` | Every action keeps: counters agree with the pass table, reservations are monotone, passes and commits read no older than they reserved, and until exit the history is one strictly increasing chain |
| `StatusSafety.MarksKept` | `src/builtin_backend.rs:2946-2951` | Output versions at reservation never run backwards |
| `StatusSafety.PassesKept` | `src/builtin_backend.rs:2951-2973` | A pass in flight has read a tail and an OSC state at least as new as the version at its reservation |
| `StatusSafety.CommitsKept` | `src/builtin_backend.rs:3006-3029` | Every commit's reading is at least as new as its reservation and its report is the detector's answer for that reading |
| `StatusSafety.ChainKept` | `src/builtin_backend.rs:3006-3029` | Until exit clears the cache, sequence numbers strictly increase and each commit's predecessor report is the previous commit's |
| `StatusSafety.CommitCovers` | `src/builtin_backend.rs:3006-3016` | A pass reserved after the latest output leaves a fresh cache whether it commits or is overtaken |
| `StatusSafety.CoveredPass` | `src/builtin_backend.rs:2946-3045` | A detection step never loses the coverage of the newest output |
| `StatusSafety.CoveredSweeper` | `src/builtin_backend.rs:2503-2518` | A sweeper step, including the swap of the pending flag and the re-mark, never loses that coverage |
| `StatusSafety.CoveredReader` | `src/builtin_backend.rs:2660-2831` | A reader step, including setting and clearing the pending flag, never loses that coverage |
| `StatusOutcomes.StalePassDropped` | `src/builtin_backend.rs:3006-3016` | A pass whose tail predates the committed sequence's reservation changes neither cache nor history |
| `StatusOutcomes.StaleNeverWins` | `src/builtin_backend.rs:2946-3031` | Over any run up to exit, of two commits the later has the higher sequence and read no older output than the earlier's reservation |
| `StatusOutcomes.AcceptedMeansUnblocked` | `src/builtin_backend.rs:2868-2907` | One direction: no accepted submit has a window from call to second check in which every output version reads as blocked, whatever the other threads did; `StatusAcceptance.RefusedIff` and `StatusAcceptance.UnblockedPromptPastes` are the other |
| `StatusOutcomes.BlockedPromptRefused` | `src/builtin_backend.rs:2885-2894` | If every version from the call to the second check reads as blocked, that check refuses, and in every continuation nothing of this submit is on the PTY; who else is refused is `StatusAcceptance.RefusedIff` |
| `StatusAcceptance.RefusedIff` | `src/builtin_backend.rs:2868-2892` | Over any run a submit is refused iff the terminal had exited at its call or one of its two checks found a cached report whose status is Blocked; idle, working, done, unknown or no report let it through |
| `StatusAcceptance.GoesOn` | `src/builtin_backend.rs:2868-2906` | Where each action of a submit leads when nothing refuses it |
| `StatusAcceptance.UnblockedPromptPastes` | `src/builtin_backend.rs:2868-2907` | A submit none of whose checks found Blocked and whose writes succeed ends with exactly one paste and one carriage return on the PTY, the return left out iff its gap ended on an exited terminal |
| `StatusAcceptance.PtyIsWritten` | `src/builtin_backend.rs:2893-2906` | The PTY receives exactly what the writes of a run put there, in their order |
| `StatusAcceptance.SubmitEnds` | `src/builtin_backend.rs:2868-2907` | A submit takes at most twelve actions, its detection pass included, and until it has ended its next one is enabled in every reachable state |
| `StatusAcceptance.ReaderMoves` | `src/builtin_backend.rs:2660-2831` | The reader is never stuck, and while waiting it can take output |
| `StatusAcceptance.ReaderGateIff` | `src/builtin_backend.rs:2796-2822` | The reader detects iff no check was made or the last is 500 ms old, stamps the moment and clears the flag; otherwise it leaves the stamp and sets the flag |
| `StatusAcceptance.SweepGateIff` | `src/builtin_backend.rs:2796-2822` | So does the sweeper, by the time it took before the lock, setting the flag again when it may not |
| `StatusAcceptance.SweeperChecksIff` | `src/builtin_backend.rs:2503-2518` | The sweeper stops at an exited terminal, takes up a check iff one was pending, which it withdraws, and drops it if the terminal has exited since |
| `StatusAcceptance.NoSweepAfterExit` | `src/builtin_backend.rs:2503-2518` | On an exited terminal a sweeper not already past that look never detects again, in any run |
| `StatusAcceptance.ExitPathIs` | `src/builtin_backend.rs:2711-2781` | The exit path sets the flag, makes a tracker version of its own, empties the cache and ends |
| `StatusAcceptance.ReadsNewest` | `src/builtin_backend.rs:2951-2973` | A pass reads the scrollback and then the tracker as they are when it reads them |
| `StatusAcceptance.CacheStep` | `src/builtin_backend.rs:3003-3030` | Only the exit path and a commit with a newer number touch the cache, and the commit leaves the detector's answer for what its pass read |
| `StatusOutcomes.AtMostOnePaste` | `src/builtin_backend.rs:2868-2907` | Over any run a submit has written one whole paste if it was accepted and none otherwise, at most one carriage return and that only behind its paste; a failed one left at most one fragment |
| `StatusOutcomes.PromptsKept` | `src/builtin_backend.rs:2868-2907` | Every action keeps what each submit may rely on: from its own pass on, the cached report was reserved after its call |
| `StatusOutcomes.PtyKept` | `src/builtin_backend.rs:2893-2906` | Every action keeps the paste, fragment and carriage-return counts of every submit |
| `StatusOutcomes.EventsMatchCommits` | `src/builtin_backend.rs:3017-3045` | With no publication in flight the issued events are exactly the commits whose report is not the one before it and one of the two names an agent, once each; until exit the one before is the previous commit's |
| `StatusOutcomes.EventsKept` | `src/builtin_backend.rs:3006-3045` | Every action keeps: a due commit is either issued once or held by exactly one pass |
| `StatusEventOrder.EventsOvertake` | `src/builtin_backend.rs:3031-3045` | Counterexample run: the reader commits first and publishes last, so clients end on the older report while the cache holds the newer |
| `StatusEventOrder.DisorderIff` | `src/builtin_backend.rs:3031-3045` | An ordered state stops being ordered exactly by publishing one commit's event while an older commit's is in flight |
| `StatusEventOrder.EventsInOrderIff` | `src/builtin_backend.rs:3031-3045` | Over any run the events are in commit order, with nothing older in flight, iff no step published past an older commit; with nothing in flight the log itself decides |
| `StatusEventOrder.SerialKeepsOrder` | `src/builtin_backend.rs:3031-3045` | In particular events are in commit order when every commit is attempted with no publication in flight |
| `StatusRuntime.TerminalRuntime.PublishGate` | `src/builtin_backend.rs:2796-2822` | The reader's gate does to the cells what the protocol's gate and flag steps do |
| `StatusRuntime.TerminalRuntime.SweepGate` | `src/builtin_backend.rs:2503-2518` | One uninterrupted sweeper tick does to the cells what the protocol's sweeper steps do, no-op on a dead terminal included |
| `StatusRuntime.TerminalRuntime.ReserveSeq` | `src/builtin_backend.rs:2951-2951` | Reserving a sequence number is the protocol's reserve step |
| `StatusRuntime.TerminalRuntime.CommitReport` | `src/builtin_backend.rs:3003-3030` | The compare-and-set commit is the protocol's commit step, and asks for an event only for a newer, different report |
| `AttachResults.AttachStreamTheorem` | `src/builtin_backend.rs:538-608` | After any interleaving the client's first frame is the newest min(total, 8 MiB) bytes of the chunks in its snapshot, its live frames carry exactly the chunks from its subscription on, in order and without a gap, and at most one chunk is in both |
| `AttachResults.IdleReaderExact` | `src/builtin_backend.rs:538-608` | With the reader idle between snapshot and subscription, whatever happens later, replay and live bytes together are the end piece of everything printed up to the last chunk written: no byte twice and none missing |
| `AttachResults.WritesItsMessage` | `src/builtin_backend.rs:614-679` | In every reachable state a successful write appends exactly the frame of the message in hand: a replay with its number, the next live number with its chunk, or the shutdown with its reason |
| `AttachResults.ReplaysChargedRight` | `src/builtin_backend.rs:551-608` | Along every run each replay queued or in hand is charged its length, an empty one a single byte |
| `AttachResults.ReattachReads` | `src/builtin_backend.rs:550-550` | A re-attach takes the newest 8 MiB of everything printed by that moment |
| `AttachResults.ReattachSends` | `src/builtin_backend.rs:551-580` | and, whatever reader and writer do meanwhile, adds exactly its length to the counter and queues exactly those bytes behind what was queued before, if the writer is there |
| `AttachResults.ReaderMoves` | `src/builtin_backend.rs:2660-2781` | The reader always has a next action until its exit notices are out |
| `AttachResults.ConnMoves` | `src/builtin_backend.rs:538-608` | The connection always has one up to its end, unless the reader holds the subscriber lock |
| `AttachResults.WriterMoves` | `src/builtin_backend.rs:614-679` | A running writer waits only on an empty queue to which somebody can still send |
| `AttachResults.ExactBacklog` | `src/builtin_backend.rs:551-679` | While the writer lives, the counter is the charges of queued messages, the write in flight, and charges added but not yet sent, across attach, re-attach and failures |
| `AttachResults.NoUnderflow` | `src/builtin_backend.rs:551-679` | No step of any interleaving takes the counter below zero |
| `AttachResults.ShedMeansBacklog` | `src/builtin_backend.rs:2674-2696` | The reader sheds iff the real backlog is above the cap, and without a re-attach a listed client is never above it between appends |
| `AttachResults.StopReasons` | `src/builtin_backend.rs:614-679` | A writer that stopped without a write failure had written every chunk it was ever sent: up to the overflow notice, up to the terminal's last chunk on exit |
| `AttachResults.ExitNoticeIff` | `src/builtin_backend.rs:2604-2611` | Once the notices are out, an attached client that was not shed has one queued or in hand iff the run did not subscribe it after they were sent, which takes an exit check made before |
| `AttachResults.ExitCanBeMissed` | `src/builtin_backend.rs:2604-2611` | A concrete run that ends with a dead terminal and a client waiting forever on an open channel |
| `AttachResults.SafeKept` | `src/builtin_backend.rs:538-679` | Every action of reader, connection and writer keeps accounting, stream, contents, cap and notice invariants |
| `AttachResults.SafeAlong` | `src/builtin_backend.rs:538-679` | They hold after any interleaving |
| `AttachSafety.BalancedReader` | `src/builtin_backend.rs:2674-2706` | Charging, sending, shedding and undoing keep the counter equal to the backlog |
| `AttachSafety.BalancedConn` | `src/builtin_backend.rs:551-608` | First attach, re-attach and a refused send keep it |
| `AttachSafety.BalancedWriter` | `src/builtin_backend.rs:614-679` | Receiving, writing, failing and discharging keep it |
| `AttachSafety.HistoryReader` | `src/builtin_backend.rs:2660-2667` | What the client's snapshot held is not changed by later appends |
| `AttachStream.WriterKept` | `src/builtin_backend.rs:614-679` | A writer step keeps the run of chunks contiguous, its numbers 2, 3, ..., and the notices last |
| `AttachStream.ReaderKept` | `src/builtin_backend.rs:2674-2781` | A reader step appends the next chunk or the one notice, never past a notice |
| `AttachStream.ConnKept` | `src/builtin_backend.rs:538-608` | A connection step puts the replay first and only replays numbered 0 afterwards |
| `Scrollback.LastOfLast` | `src/builtin_backend.rs:2660-2667` | Trimming after each append keeps the same bytes as trimming the whole output once |
| `Scrollback.Deque.Append` | `src/builtin_backend.rs:2660-2667` | Extending and popping the overflow leaves the last 8388608 bytes of the old contents and the chunk, or all of them if fewer |
| `Scrollback.Deque.Tail` | `src/builtin_backend.rs:2626-2640` | Collecting backwards and reversing gives the last max bytes, or all of them if fewer, in printed order |
| `FanOut.OfferIsProtocol` | `src/builtin_backend.rs:2674-2706` | One turn of the retain loop is the protocol's reader steps with nothing in between |
| `FanOut.ShedExactly` | `src/builtin_backend.rs:2680-2704` | A subscriber is dropped iff its writer is gone or the chunk takes it over the cap, and in the second case the overflow notice is the last thing queued |
| `FanOut.Subscribers.FanOut` | `src/builtin_backend.rs:2674-2706` | The loop serves every listed channel once, touches no other, and retains exactly those that stay, in order |
| `FanOut.Subscribers.OfferTo` | `src/builtin_backend.rs:2680-2704` | The charge, send, shed-or-undo sequence computes the turn |
| `FanOut.Subscribers.Subscribe` | `src/builtin_backend.rs:2604-2612` | A dead terminal answers with the exit notice and lists nobody; a live one lists the client last |
| `FanOut.Subscribers.NotifyExited` | `src/builtin_backend.rs:2711-2781` | Once, every listed client whose writer is there gets the notice and stays listed; the others go |
| `FanOut.RetainedIsListed` | `src/builtin_backend.rs:2674-2706` | The retained list has no repeats and holds exactly the listed subscribers whose turn kept them |
| `RegistryRuns.RegistryAlwaysIntact` | `src/builtin_backend.rs:1112-1411` | After any interleaving of two-section creates, closes, promote, open and remove: back-references match duplicate-free lists, panes and terminals are in bijection, every tab has a pane, ids are below the counter, focus never dangles, and no insert in flight can overwrite |
| `RegistryRuns.StepKeeps` | `src/builtin_backend.rs:1112-2243` | Each mutex section keeps all of that |
| `RegistryRuns.AllocateKeeps` | `src/builtin_backend.rs:3644-3648` | Ids handed out are below the counter, unused, and never handed out twice |
| `RegistryRuns.FinishKeeps` | `src/builtin_backend.rs:1156-1218` | The insert after the spawn uses only its own ids and keeps everything |
| `RegistryRuns.FocusLostIff` | `src/builtin_backend.rs:1130-1132` | Of all sections only one can leave a non-empty registry without a focused workspace: a create that decided against focus before its spawn and finishes into an empty registry |
| `RegistryCreates.WorkspaceCreated` | `src/builtin_backend.rs:1130-1195` | With any sections between begin and finish, after any run: the new workspace, tab, pane and terminal with their fresh ids, titles and directory are added; focus is the new triple iff it was asked for or no workspace was focused at the begin, and else what it was at the finish |
| `RegistryCreates.AgentStarted` | `src/builtin_backend.rs:1329-1411` | The same for an agent, which always takes focus and names both rows |
| `RegistryCreates.BareCreated` | `src/builtin_backend.rs:1196-1222` | The same without a terminal; focus is the workspace alone iff it was asked for or no workspace is focused at the finish |
| `RegistryCreates.TabCreated` | `src/builtin_backend.rs:1232-1327` | The same for a tab, last on its workspace's list; focus is the new triple iff it was asked for or any of workspace, tab and pane is unfocused at the finish; into a closed workspace nothing changes |
| `RegistrySections.WorkspaceClosed` | `src/builtin_backend.rs:1691-1705` | `workspace.close` leaves exactly the other workspaces and what is in them |
| `RegistrySections.TabClosed` | `src/builtin_backend.rs:1707-1727` | `tab.close` leaves everything but the tab, its panes and terminals, and its workspace lists the others in the old order |
| `RegistrySections.PaneClosed` | `src/builtin_backend.rs:1908-1943` | `pane.close` does so for one pane, and for the tab when it was the last |
| `RegistrySections.WorktreeRemoved` | `src/builtin_backend.rs:2211-2228` | `worktree_remove` leaves exactly the workspaces that were not matched |
| `RegistrySections.MissingChangesNothing` | `src/builtin_backend.rs:1657-1943` | A request for something that is gone changes nothing |
| `RegistrySections.TabPromoted` | `src/builtin_backend.rs:1738-1872` | From a workspace rooted elsewhere the tab, its panes and the focus end in the workspace found at the live path, or in a new one with the next id |
| `RegistrySections.PromoteRefused` | `src/builtin_backend.rs:1770-1800` | From a workspace rooted there already, nothing happens |
| `RegistrySections.CheckoutOpened` | `src/builtin_backend.rs:2045-2086` | Opening an open checkout sets the title given, if any, and focuses the first pane of its first tab |
| `RegistrySections.Renamed` | `src/builtin_backend.rs:1657-1689` | A rename changes one title |
| `RegistryRuns.FocusCanBeLost` | `src/builtin_backend.rs:1191-1191` | A concrete run in which that happens |
| `RegistryRuns.AtomicCreatesKeepFocus` | `src/builtin_backend.rs:1112-1411` | In every run whose creates nothing interleaves with, failed spawns included, some workspace is focused whenever one exists |
| `RegistryRuns.AtomicCreateFocuses` | `src/builtin_backend.rs:1130-1218` | A create whose sections follow one another keeps that |
| `RegistryRuns.CloseKeeps` | `src/builtin_backend.rs:1691-1943` | Every close keeps integrity and focus and takes no id into use; one that acted leaves some workspace focused whenever one exists |
| `RegistryRuns.PromoteStepKeeps` | `src/builtin_backend.rs:1738-1906` | Promotion or its refusal keeps integrity and focus and uses at most the next id |
| `RegistryOpen.OpenUniqueIff` | `src/builtin_backend.rs:2043-2098` | A create that found nothing at its directory ends as the only workspace there in every continuation without new creates or promotions for that directory, iff no other create for it is in flight |
| `RegistryOpen.OpensCanDuplicate` | `src/builtin_backend.rs:2043-2098` | A concrete run: two opens both look before either inserts, and two workspaces share the directory |
| `RegistryIntegrity.CloseTabExact` | `src/builtin_backend.rs:3570-3588` | Closing a tab removes exactly the tab, its panes and their terminals and takes it off its workspace's list |
| `RegistryIntegrity.CloseTabKeeps` | `src/builtin_backend.rs:3570-3579` | Closing a tab keeps integrity, also half-way through closing its workspace |
| `RegistryIntegrity.ClosePanesExact` | `src/builtin_backend.rs:3570-3588` | The pane loop removes exactly the listed panes and their terminals |
| `RegistryIntegrity.WithoutAt` | `src/builtin_backend.rs:3570-3588` | Taking an id off a list cuts it out and keeps the order of the rest |
| `RegistryIntegrity.DropWorkspaceExact` | `src/builtin_backend.rs:1691-1705` | Closing a workspace removes exactly its row, its tabs, their panes and their terminals |
| `RegistryIntegrity.DropWorkspaceKeeps` | `src/builtin_backend.rs:1691-1705` | and keeps integrity |
| `RegistryIntegrity.DropWorkspacesKeep` | `src/builtin_backend.rs:2211-2228` | So does closing the workspaces matched by a worktree removal, whether or not they are still there |
| `RegistryIntegrity.DropWorkspacesExact` | `src/builtin_backend.rs:2211-2228` | and removes exactly the matched that are still there, with everything in them |
| `RegistryIntegrity.LastPaneClosesTab` | `src/builtin_backend.rs:1908-1943` | Closing a tab's last pane is closing the tab |
| `RegistryIntegrity.DropPaneKeeps` | `src/builtin_backend.rs:1908-1943` | Closing a pane keeps integrity in both cases |
| `RegistryIntegrity.ClosePaneExact` | `src/builtin_backend.rs:3581-3588` | Closing a pane that is not the last removes exactly it and its terminal and takes it off its tab's list, whose order stays |
| `RegistryIntegrity.InsertConserves` | `src/builtin_backend.rs:1156-1327` | An insert adds its own rows, hooked to one another, the tab at the end of its workspace's list, and removes or overwrites nothing; into a closed workspace it does nothing |
| `RegistryIntegrity.InsertKeeps` | `src/builtin_backend.rs:1156-1327` | Inserting any ticket with unused ids keeps integrity, a tab whose workspace is gone included |
| `RegistryMoves.PromoteConserves` | `src/builtin_backend.rs:1833-1854` | No terminal, pane or tab appears or disappears, every pane keeps its terminal and tab, only the moved tab's panes change, to the new workspace and directory, and its title only from "temp" to "Shell" |
| `RegistryMoves.PromoteMovesOnce` | `src/builtin_backend.rs:1833-1865` | The tab is on one list before and on one other list after; at most one workspace appears and the source disappears iff the tab was its last |
| `RegistryMoves.PromoteKeeps` | `src/builtin_backend.rs:1738-1906` | Promotion keeps integrity |
| `RegistryMoves.PromoteFocus` | `src/builtin_backend.rs:1867-1872` | Promotion focuses the moved tab and its first pane in the destination, and focus repair leaves that alone |
| `RegistryMoves.TargetIsOther` | `src/builtin_backend.rs:1784-1812` | The guard and the lookup together never pick the tab's own workspace |
| `RegistryMoves.PromoteSteps` | `src/builtin_backend.rs:1812-1872` | The edits in the code's order, with any workspace picked by the repair, give one and the same result |
| `RegistryMoves.NormalizeRepairs` | `src/builtin_backend.rs:3590-3642` | Repair leaves a valid focus triple with a workspace whenever one exists, and keeps integrity |
| `RegistryMoves.NormalizeChooses` | `src/builtin_backend.rs:3590-3642` | The focused workspace is kept if it is there, else the pick; the focused tab if it is in that workspace, else its first; the focused pane if it is in that tab, else its first |
| `RegistryMoves.NormalizeIdempotent` | `src/builtin_backend.rs:3590-3642` | Repairing twice is repairing once, whichever workspace the second run would pick |
| `RegistryMoves.NormalizeKeepsValid` | `src/builtin_backend.rs:3590-3642` | A valid triple is left unchanged |
| `RegistryMoves.InsertFocus` | `src/builtin_backend.rs:1191-1323` | Inserts keep the triple valid; where it ends is `RegistryCreates` |
| `RegistryMoves.OpenExistingKeeps` | `src/builtin_backend.rs:2045-2086` | Focusing an already open checkout keeps integrity, focuses its first pane and changes at most its title |
| `RegistryListing.ListedOnce` | `src/builtin_backend.rs:3137-3169` | In an intact registry the ordered listings show each tab and each pane exactly once, or exactly those of the one workspace asked for |
| `RegistryListing.ListedInOrder` | `src/builtin_backend.rs:3137-3169` | Tabs are listed by ascending workspace and within it in list order, panes by their tab in that order and within it in list order |
| `RegistryListing.SortedIs` | `src/builtin_backend.rs:3137-3141` | Workspaces are listed by ascending id, each once |
| `RegistryListing.SortedUnique` | `src/builtin_backend.rs:3137-3141` | There is one ascending list, whatever the sort |
| `Registry.BuiltinState.BeginWorkspace` | `src/builtin_backend.rs:1112-1140` | Takes the next four ids and decides before the spawn: it will take focus iff asked to or no workspace is focused now |
| `Registry.BuiltinState.BeginBare` | `src/builtin_backend.rs:1112-1140` | Without a terminal the same section takes four ids and leaves the focus question open |
| `Registry.BuiltinState.BeginAgent` | `src/builtin_backend.rs:1341-1352` | An agent takes four ids and will take focus |
| `Registry.BuiltinState.TabPlace` | `src/builtin_backend.rs:1238-1251` | The workspace asked for, or the focused one, with its directory; otherwise which of the two errors |
| `Registry.BuiltinState.BeginTab` | `src/builtin_backend.rs:1252-1262` | A tab takes three ids |
| `Registry.BuiltinState.Matching` | `src/builtin_backend.rs:2180-2197` | Exactly the workspaces rooted at the checkout, each once |
| `Registry.BuiltinState.FinishCreate` | `src/builtin_backend.rs:1156-1327` | The insert passes of the creates; refuses, changing nothing, iff the target workspace is gone; focus moves to the new ids iff that was decided or is due now, and stays otherwise |
| `Registry.BuiltinState.ClosePaneLocked` | `src/builtin_backend.rs:3581-3588` | In-place pane removal equals the model's |
| `Registry.BuiltinState.CloseTabLocked` | `src/builtin_backend.rs:3570-3579` | In-place tab removal with its pane loop equals the model's |
| `Registry.BuiltinState.DropWorkspace` | `src/builtin_backend.rs:1691-1702` | In-place workspace removal with its tab loop equals the model's |
| `Registry.BuiltinState.NormalizeFocus` | `src/builtin_backend.rs:3590-3642` | In-place focus repair equals the model's for some existing workspace as the pick |
| `Registry.BuiltinState.CloseWorkspace` | `src/builtin_backend.rs:1691-1705` | Not found changes nothing; otherwise exactly removal and repair, the repair's pick being one that is left |
| `Registry.BuiltinState.CloseTab` | `src/builtin_backend.rs:1707-1727` | Not found changes nothing; otherwise exactly removal and repair |
| `Registry.BuiltinState.ClosePane` | `src/builtin_backend.rs:1908-1943` | Not found changes nothing; otherwise exactly the cascade, its double repair being one |
| `Registry.BuiltinState.RemoveWorktree` | `src/builtin_backend.rs:2211-2228` | Always exactly the removal of each matched workspace that is still there, then repair |
| `Registry.BuiltinState.OpenExisting` | `src/builtin_backend.rs:2045-2086` | Finds some workspace rooted at the path, relabels and focuses it; none found changes nothing |
| `Registry.BuiltinState.PromoteTab` | `src/builtin_backend.rs:1770-1872` | The three outcomes by their guards; an error changes nothing, success is the model's promotion to the workspace found or created |
| `Registry.BuiltinState.Find` | `src/builtin_backend.rs:1801-1811` | Some workspace rooted at the path, or none only when no workspace is rooted there |
| `Registry.BuiltinState.MoveTabTo` | `src/builtin_backend.rs:1833-1865` | The re-parenting edits equal the model's |
| `Registry.BuiltinState.RenameWorkspace` | `src/builtin_backend.rs:1657-1672` | Not found changes nothing; otherwise the title and nothing else |
| `Registry.BuiltinState.RenameTab` | `src/builtin_backend.rs:1674-1689` | Not found changes nothing; otherwise the title and nothing else |
| `RegistryMoves.RenameWorkspaceKeeps` | `src/builtin_backend.rs:1657-1672` | A rename writes the one title, and leaves integrity and focus alone |
| `RegistryMoves.RenameTabKeeps` | `src/builtin_backend.rs:1674-1689` | So does a renamed tab |
| `Registry.BuiltinState.OrderedWorkspaces` | `src/builtin_backend.rs:3137-3141` | Sorting the keys gives the one ascending list |
| `Registry.BuiltinState.OrderedTabs` | `src/builtin_backend.rs:3143-3157` | The listing loop with its workspace filter computes the listed tabs |
| `Registry.BuiltinState.OrderedPanes` | `src/builtin_backend.rs:3159-3169` | and the pane loop the listed panes |
| `OscGrammar.EveryHistoryParses` | `src/builtin_backend.rs:164-208` | Every byte history is a list of grammar items and an unfinished tail, and the tracker holds exactly what they say |
| `OscGrammar.TrackerReadsGrammar` | `src/builtin_backend.rs:164-228` | For every list of items and tail, the tracker's progress and title are the last non-empty sanitized ones and its state is the tail's |
| `OscGrammar.ProgressRecovered` | `src/builtin_backend.rs:210-217` | A frame 1B 5D 39 3B p printed outside a string, pending escapes included, with at most 4094 bytes p free of 1B and 07, is recovered under either terminator, literally if it decodes to harmless text; the title is untouched |
| `OscGrammar.TitleRecovered` | `src/builtin_backend.rs:210-228` | The same for OSC 0 and OSC 2 and the title |
| `OscGrammar.EscapeHidesTerminator` | `src/builtin_backend.rs:184-200` | After an escape inside a body, BEL is body text, and so are a second escape and the backslash behind it |
| `OscGrammar.StillInside` | `src/builtin_backend.rs:184-200` | Concretely, `ESC ] 9 ; x ESC BEL` and `ESC ] 9 ; x ESC ESC \` leave the tracker inside the string |
| `OscGrammar.FoldBody` | `src/builtin_backend.rs:183-201` | Body text, embedded escapes included, is collected byte for byte |
| `OscGrammar.SplitFirst` | `src/builtin_backend.rs:270-273` | The command is what stands before the first semicolon |
| `OscTracker.AlwaysBounded` | `src/builtin_backend.rs:203-206` | After every history the body is within 4096 bytes and empty outside a sequence |
| `OscTracker.ChunkingIrrelevant` | `src/builtin_backend.rs:165-208` | Any chunking of the bytes gives the same state |
| `OscTracker.PrintableJoins` | `src/builtin_backend.rs:212-214` | Sanitizing goes character by character and drops exactly the codes below 32 and from 127 to 159 |
| `OscTracker.Osc9Tracker.Observe` | `src/builtin_backend.rs:165-208` | The byte loop is the fold of the one-byte step and keeps the bounds |
| `OscTracker.Osc9Tracker.FinalizeBody` | `src/builtin_backend.rs:210-228` | Finalizing in place equals the model's |
| `OscTracker.Osc9Tracker.Reset` | `src/builtin_backend.rs:257-262` | Reset returns to the initial state |
| `Sessions.ConstantTimeEqIsEquality` | `src/auth.rs:299-304` | The xor-or fold is zero iff the byte strings are equal |
| `Sessions.AuthConfig.PurgeLapsed` | `src/auth.rs:183-192` | Drops exactly the lapsed, and reports and bumps the revision iff something went |
| `Sessions.LiveOfJoins` | `src/auth.rs:183-185` | Record by record and in order, a purge keeps what expires later than the reading |
| `Sessions.OthersJoin` | `src/auth.rs:197-202` | and a logout what has another token |
| `Sessions.AuthConfig.IssueSession` | `src/auth.rs:165-179` | Purge, append, evict the first of nine, bump; the new record is last and lasts exactly as the policy says |
| `Sessions.IssuedLasts` | `src/auth.rs:150-179` | A session issued at now under m minutes is valid exactly at readings before now + m * 60000000000 ns; from 2^64 seconds on before now + (2^64 - 1) s; without expiry before 9999-12-31T23:59:59 |
| `Sessions.ReanchoredLast` | `src/auth.rs:150-231` | The same holds of every record after a change of policy, tokens and order unchanged |
| `Sessions.AuthConfig.RevokeSession` | `src/auth.rs:197-206` | Removes every record with the token; true and bumped iff there was one |
| `Sessions.AuthConfig.ResetSessions` | `src/auth.rs:210-214` | Leaves only the freshly minted session, which lasts as the policy says |
| `Sessions.AuthConfig.ReanchorExpiries` | `src/auth.rs:221-231` | Every session then lasts as if issued now under the policy, or nothing happens on an empty set |
| `Sessions.AuthConfig.RestoreSessions` | `src/auth.rs:235-239` | Keeps the first eight records given, or all if fewer |
| `Sessions.AuthConfig.FindValidSession` | `src/auth.rs:258-269` | Finds iff the first record with the token has not expired; a hit moves it behind the others, a miss changes nothing |
| `Sessions.AuthConfig.TokenIsValid` | `src/auth.rs:252-254` | True iff some record is valid |
| `Sessions.AuthConfig.CurrentSession` | `src/auth.rs:273-278` | The last valid record, or none iff none is valid |
| `Sessions.AuthConfig.MatchCookie` | `src/auth.rs:400-409` | Stops at the first cookie value that names a valid session and touches only that one |
| `Sessions.AuthConfig.Authorized` | `src/auth.rs:383-413` | True iff bypassed, or a value matched and some session is valid at the closing clock reading, in whichever direction the clock moved |
| `Sessions.AdmitsIff` | `src/auth.rs:396-413` | Without a bypass a request passes iff the first record of one of its values has not expired at the first reading and some record has not at the second |
| `Sessions.PassesLapsedIff` | `src/auth.rs:399-413` | A request passes although its own record has lapsed by the closing reading exactly when that record expires by then and another is still valid |
| `Sessions.PassesLapsed` | `src/auth.rs:399-413` | Two records and two clock readings at which that happens |
| `SessionRuns.EvictionIsLru` | `src/auth.rs:165-179` | Over any run with fresh tokens the set holds at most eight, and an issue removes a session only if it has lapsed or eight others were each touched since its own last touch |
| `SessionRuns.IssueRemoves` | `src/auth.rs:165-179` | Exactly who goes: the lapsed, and the least recently used of eight live sessions |
| `SessionRuns.StackAlong` | `src/auth.rs:165-269` | Every run keeps the records in the order of their latest issue or use |
| `SessionRuns.LookupOnlyReorders` | `src/auth.rs:258-269` | A failed lookup changes nothing; a hit keeps the records, the revision and the order of the rest |
| `SessionRuns.EqualRevisionsEqualRecords` | `src/auth.rs:165-239` | Two moments of a run with equal revisions hold the same records up to order, wrap aside |
| `SessionRuns.BumpsAlong` | `src/auth.rs:165-239` | The revision counts the changes modulo 2^64 and no change means the same records |
| `RateLimiter.BlockedIff` | `src/auth.rs:340-360` | After any interleaving an address is blocked iff at least five failures since its last reset are younger than 300 s |
| `RateLimiter.PruningInvisible` | `src/auth.rs:346-356` | A run with its checks taken out gives the same later answers |
| `RateLimiter.PrunedTwice` | `src/auth.rs:346-353` | Pruning now and again later is pruning later, a missing cutoff included |
| `RateLimiter.BlockEnds` | `src/auth.rs:340-360` | A block ends exactly when the fifth-newest stored failure leaves the window |
| `RateLimiter.ResetForgets` | `src/auth.rs:368-372` | A reset address is not blocked, and no other address notices |
| `RateLimiter.LoginRateLimiter.IsBlocked` | `src/auth.rs:340-360` | Prunes the one address, drops an empty entry, and answers by what is left |
| `RateLimiter.LoginRateLimiter.RecordFailure` | `src/auth.rs:362-366` | Appends the failure |
| `Paging.DecodeEncodeIff` | `src/chat_lens.rs:169-202` | A cursor decodes to itself iff session and generation hold no colon and the message reference is valid |
| `Paging.EncodeDecode` | `src/chat_lens.rs:186-202` | Whatever decodes is the encoding of its result, for this session |
| `Paging.SplitUnique` | `src/chat_lens.rs:186-189` | Splitting at the first colon inverts joining |
| `Paging.DecodeIff` | `src/chat_lens.rs:186-202` | Exactly the texts session:generation:message of this session decode, each to itself, the first two without a colon, the message one to 128 letters, digits, hyphens, dots, colons or underscores |
| `Paging.ConversationPage` | `src/chat_lens.rs:227-356` | The reassigning cut computes the declared page or the declared refusal, in the code's order of checks |
| `Paging.RefusedIff` | `src/chat_lens.rs:240-326` | A page is refused iff a cursor cannot be read, or both are given, or the transcript is missing, or a cursor names a message no turn was opened by, and with that reason |
| `Paging.PageIs` | `src/chat_lens.rs:291-352` | A page ends before the turn `before` names, goes back a hundred turns or to the turn `from` names, and hands out the cursor text of its first turn unless that is the first of all or has no id |
| `PagingRuns.PagesTile` | `src/chat_lens.rs:291-352` | Following older cursors while the transcript grows, the pages join up to exactly a suffix of the first transcript in everything growth keeps of a turn, nothing is refused, and a null cursor means the beginning or a page opening on a turn without an id |
| `PagingRuns.IdsTile` | `src/chat_lens.rs:291-352` | In particular in the ids, whatever merging and folding do to what turns hold |
| `PagingRuns.PagesCompleteIff` | `src/chat_lens.rs:334-352` | Given enough fetches the whole transcript comes back iff every page boundary falls on a turn with an id |
| `PagingRuns.FirstTurnLost` | `src/chat_lens.rs:340-352` | A transcript of 101 turns, the second without an id, whose first turn no number of fetches reaches |
| `PagingRuns.BeforePage` | `src/chat_lens.rs:291-352` | A page before turn p ends strictly below p, and its cursor is null iff it starts at the beginning or opens on a turn without an id |
| `PagingRuns.NewestPage` | `src/chat_lens.rs:329-352` | The same for the newest page |
| `PagingRuns.FromPage` | `src/chat_lens.rs:311-333` | A held anchor yields exactly the turns from the later of the anchor and the last hundred |
| `ProcessTree.ProcessTree` | `src/chat_lens.rs:551-570` | The one-pass walk terminates on every table, cycles included, and returns exactly the pids reachable from the root |
| `ProcessTree.PidInTree` | `src/chat_lens.rs:521-543` | The per-pid walk answers reachability |
| `ProcessTree.TreeAgrees` | `src/chat_lens.rs:697-717` | Both agree on every pid, and the tree is closed under children |
| `ProcessTree.Children` | `src/chat_lens.rs:525-528` | The map lists every parent's children in table order |
| `ProcessTree.TurnKeeps` | `src/chat_lens.rs:560-568` | One turn of the worklist keeps it sound and complete and shrinks what is left |
| `EventHub.HubDeliversPrefixes` | `src/builtin_events.rs:17-34` | In every interleaving, receivers acting between sends included, each subscriber has a gap-free prefix of what was published since it subscribed, at most 256 queued, and all of it while connected and listed |
| `EventHub.DroppedGetsNothing` | `src/builtin_events.rs:28-32` | A dropped subscriber is sent nothing later |
| `EventHub.DroppedIff` | `src/builtin_events.rs:28-32` | A subscriber is dropped exactly by an offer that finds it hung up or full |
| `EventHub.SubscribedIsListed` | `src/builtin_events.rs:17-23` | A new subscriber is listed last with an empty open channel and has everything published from then on to come |
| `EventHub.PublicationMoves` | `src/builtin_events.rs:25-34` | A publication under way always has a next step and each brings it nearer its end |
| `EventHub.ReceiverTakes` | `src/builtin_events.rs:17-23` | A receiver takes the oldest event waiting; one that hung up is closed and keeps what it took |
| `EventHub.StepKeeps` | `src/builtin_events.rs:17-34` | Each step keeps the prefix invariant |
| `EventHub.BuiltinEventHub.Subscribe` | `src/builtin_events.rs:17-23` | A new channel, empty, at the end of the list |
| `EventHub.BuiltinEventHub.Publish` | `src/builtin_events.rs:25-34` | The retain loop is one begin, every offer in order, one finish |
| `LspRoundTrip.FramingRoundTrip` | `src/lsp.rs:904-915` | The reader fed the frames of any list of accepted bodies recovers exactly those bodies in order with no bytes left |
| `LspRoundTrip.CutStreamYieldsPrefix` | `src/lsp.rs:689-774` | Cut anywhere, the stream yields a prefix of the bodies and ends for lack of bytes |
| `LspRoundTrip.AcceptedIsReceived` | `src/lsp.rs:904-915` | What the send limit lets through the receive limit takes; the two errors by their causes |
| `LspRoundTrip.HeadReads` | `src/lsp.rs:692-739` | The two header lines of a frame yield its length and leave its body |
| `LspHeaders.HeadersDecide` | `src/lsp.rs:692-774` | Whatever header lines a frame has, the last length among them counts: without one the block is skipped, above 16 MiB or beyond the end the reader stops with that reason, and else the next so many bytes are a body |
| `LspHeaders.LengthIff` | `src/lsp.rs:732-736` | A line names a length iff it is the header name, white space, an optional plus, digits that fit 64 bits, and white space |
| `LspHeaders.SendIs` | `src/lsp.rs:904-915` | The bytes of a frame, and the two refusals by size above 8 MiB and by a server that is gone |
| `LspHeaders.DecimalIs` | `src/lsp.rs:909-909` | The length is printed in digits without leading zeros |
| `LspFraming.Listen` | `src/lsp.rs:689-774` | The nested reader loops compute the declared frames and stop reason |
| `LspFraming.DecimalRoundTrip` | `src/lsp.rs:909-909` | A printed length parses back to itself |
| `LspPending.PendingExact` | `src/lsp.rs:917-946` | The pending map holds exactly the inserted requests neither answered nor removed that are in flight, failed to send or were cancelled |
| `LspPending.LeftBehindIff` | `src/lsp.rs:917-946` | An ended call leaves its entry behind iff its frame could not be sent or it was cancelled once inserted, and its number was never answered |
| `LspPending.AnswersMatch` | `src/lsp.rs:933-946` | An answered call got the one answer for which its entry was taken; that taken answers do arrive is `LspPending.AnswersDelivered` |
| `LspPending.AnswersDelivered` | `src/lsp.rs:775-781` | In every reachable state, once the reader has let go of an answer it took, a call still listening has exactly that answer in its channel and a waiting one can receive it |
| `LspPending.AnswerArrives` | `src/lsp.rs:775-941` | An answer taken for a waiting call arrives: whatever runs meanwhile, short of the call giving up, it ends Answered with exactly that value |
| `LspPending.TakePutReceive` | `src/lsp.rs:775-941` | Take, send, receive: possible one after the other, and the call ends with the value taken |
| `LspPending.CallsMove` | `src/lsp.rs:917-946` | From each place of a call its next step is possible and leads where the code goes |
| `LspPending.FirstAnswerStands` | `src/lsp.rs:775-781` | Later answers to the same number find no entry |
| `LspPending.PutNeverBlocks` | `src/lsp.rs:777-780` | The one-place channel always has room when the reader sends; what it then holds is `LspPending.AnswersDelivered` |
| `LspPending.PollGetsLatest` | `src/lsp.rs:793-799` | A poll gets the newest 200 of everything pushed since the one before, in order |
| `LspPending.Notifications.Push` | `src/lsp.rs:793-799` | Push and drain leaves the newest 200 of the queue and the message |

## Left out

- Status: the process probe, the exit record, the screen and OSC rules are one uninterpreted detector of a reading; the final "done" event of `notify_exited` is not among the issued events; guarantees about the cache end when the exit path clears it; the 64-bit sequence counter does not wrap. What a failed paste leaves is recorded as one fragment, not byte by byte.
- StatusLiveness.SixTicksSuffice: a run is a finite list of actions; that the sweeper thread is scheduled at all is not a theorem, only that it can always move (SweeperMoves) and needs at most 83 moves (SweeperCatchesUp).
- Attach: one client is modelled; what the reader does for other clients touches none of its cells (`FanOut` covers the loop over all of them). A re-attach is to the same terminal. Resize and input messages, frame sizes and the overflow of the machine-word counter are not modelled.
- Registry: ids are the numbers inside the printed ids, whose kind prefix is implied by the map they are looked up in; the ids stored redundantly inside the records, labels of panes and command lines are omitted; the order of a hash map is an arbitrary pick; canonicalisation answers consistently during one mutex section. Spawning a process is the gap between the two sections of a create.
- OSC: UTF-8 lossy decoding is an uninterpreted function; the filter of control characters is modelled. The agent-label convention inside a progress payload is not modelled.
- Sessions: tokens are assumed fresh, hashing and minting are outside; one operation reads the clock once, and the per-request check twice; splitting the cookie header into values is not modelled; two matching lookups of one request share their clock reading.
- Rate limiter: a poisoned lock, which blocks everybody, is not modelled; nor are poisoned locks elsewhere.
- Paging: transcript files, session resolution and JSON shaping are not part of this model; whether both files are unreadable is an input. A compaction summary that appears or vanishes between two fetches, and turns that lose or change their id, are outside the growth theorems; ids are taken to be distinct.
- LspFraming.Listen: UTF-8 decoding of a header line is a parameter of which only "ASCII is itself" is used; what a body says is not parsed; the clean-up after the end of the stream is not modelled.
- LspPending: bounded waiting of the stdin channel, server start and idle shutdown are not modelled; message values are opaque.
- The API dispatcher, HTTP handlers, assets, git commands, sockets and PTYs are effects around this core.
