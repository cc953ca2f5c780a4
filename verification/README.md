# tmnotify, modelled and proved

tmnotify is a notification daemon for tmux. This project models the state machines it is made
of, apart from terminals and sockets, and proves what they promise.

- **The live scheduler** (`Scheduler*.dfy`, `LiveScheduler.dfy`). `SchedulerModel` gives every
  operation as a function on states; `LiveSchedulers` is the object with the source's fields and
  loops, each method proved to compute its function. The other files prove the laws: the
  invariant, exact timeouts over whole runs, display by priority and without preemption, what every
  Notification says and when it was made and displayed, what every call answers, causes of
  closing, no lost records, linear jump intents. `SchedulerForecast` says what a call will do from
  the state before it; `SchedulerExamples` runs new schedulers into each exception.
- **Idempotent requests** (`ResultCache*.dfy`, `RequestExecution.dfy`). The LRU cache with a time
  to live as an object refining a recency list, exactly when a lookup replays what, and request
  execution as interleaved worker steps around striped locks.
- **Renderer sessions** (`RendererSessions.dfy`). One-time credentials whose stores are a function
  of the history of calls.
- **tmux** (`ControlParser.dfy`, `ControlCorrelation.dfy`, `ControlFrames.dfy`,
  `ControlConnection.dfy`, `TmuxLog.dfy`, `PaneLedger.dfy`, `Backend.dfy`). Reply correlation and
  bringing panes to the desired plan. tmux itself is an oracle that may do anything; a ghost log
  keeps what was said to it and what it answered, and the registry is set against that log.
- **The retry policy** (`WindowPolicy*.dfy`, `WindowReconciler.dfy`, `DaemonLife.dfy`). One tick as
  a function of what the backend answers, the object that computes it, its laws, and the daemon
  over its whole life.
- **Transformations** (`FrameDecoder.dfy`, `PlainText.dfy`, `Wire.dfy`, `HookCommands.dfy`,
  `ShellWords.dfy`, `Hooks.dfy`, `HookLaws.dfy`, `HookShapes.dfy`, `ToastLayout.dfy`).

Where the code does less than one might expect, the exception is stated with its exact condition,
and where it takes a run to get there, with that run:

- A partial update of a pinned toast restarts its timer (`PinnedToastTimesOut`,
  `ApplyUpdateKeeps`).
- The pending limit panics (`LoweredLimitsPanic`, `OverfullQueuePanics`; `PanicsExactly`).
- A lowered limit loses closed records (`LoweredLimitsLoseOne`; `RecordsKeptExactly`).
- A response past its time to live is sent (`StaleResponseIsSent`; `FrontExpiryIsExact`).
- A response that was not stored is computed again (`OversizedIsExecutedAgain`;
  `OnlyStoringRemembers`).
- A retried move carries a pane past its place (`RetryDrifts`; `UpdateLandsIff`).
- An update that clears the position has no wire form (`UpdateRoundTrips`).
- A lone quote makes hook parsing slice out of range (`PanicsExactlyOnLoneQuote`).
- A hook command with a stray quote is taken for tmnotify's own although a shell reads it
  differently (`AmbiguousTaken`; `OwnedRunsIff`).
- Being in sync does not mean every hook is installed (`InSyncWithoutHandler`;
  `InSyncCoversIffNoDuplicates`).

Conventions. Time is a natural number of nanoseconds, so saturating sums of instants do not occur.
Revision, sequence, nonce, ticket and generation counters are unbounded where the source wraps at
64 bits. Fresh identifiers are parameters that must be unused. Ghost fields hold history only.

## Model

| member | source | states |
|---|---|---|
| SchedulerRuns.StepKeeps | src/daemon/mod.rs:281-835 | Every public operation, on every path including its errors, keeps the whole scheduler invariant: containers are the disjoint duplicate-free union of the live entries, keys are the exact inverse, the queue is ranked, nothing displayable waits, sizes are bounded; and it keeps the timers exact if and only if it does not restart the timer of a toast a jump pins |
| SchedulerTimeouts.ExactTimeouts | src/daemon/mod.rs:171-236 | In every state of every run without such a restart: time left plus time displayed since the last content change is the timeout, and it never drops below zero (so no subtraction saturates) |
| SchedulerTimeouts.TimesOutExactly | src/daemon/mod.rs:676-705 | Passing time closes exactly the toasts that are due, as timed out, and nothing else |
| SchedulerTimeouts.PinnedUpdateTimesOut | src/daemon/mod.rs:384-405 | The exception is real: a partial update of a pinned, displayed toast restarts its timer and it is later closed as timed out while still pinned |
| SchedulerExamples.PinnedToastTimesOut | src/daemon/mod.rs:384-405 | A run from a new scheduler that does it: submitted, jumped to, displayed, retitled, and one tick later closed as timed out while the jump is still pending |
| SchedulerTimeouts.RunKeeps | src/daemon/mod.rs:245-835 | Invariant over whole runs of arbitrary legal operations, and exact timers over calm ones |
| SchedulerTimeouts.NewIsGood | src/daemon/mod.rs:257-279 | The initial state satisfies both |
| SchedulerInvariant.NoClockError | src/daemon/mod.rs:201-221 | The error path of set_running cannot be taken inside the scheduler: a running timer never started in the future |
| SchedulerDisplay.SettledIffFixed | src/daemon/mod.rs:747-807 | rebalance changes nothing exactly in the states where nothing displayable waits, what is on screen is marked, and exactly the displayed unpinned timers run |
| SchedulerDisplay.RebalanceIdle | src/daemon/mod.rs:747-807 | Hence rebalance is a no-op between operations |
| SchedulerDisplay.PromotionsFollowRank | src/daemon/mod.rs:752-770 | What rebalance promotes outranks everything of its presentation that still waits |
| SchedulerDisplay.AttentionOutranks | src/daemon/mod.rs:752-759 | The Attention picked outranks every other waiting Attention |
| SchedulerDisplay.RevisionTellsChange | src/daemon/mod.rs:108-114 | Over any operation an unchanged revision means an unchanged display plan and unchanged Notifications |
| SchedulerDisplay.PlanTells | src/daemon/mod.rs:620-633 | In every state the plan shows exactly what is on screen: the Attention alone if one is displayed, or else the active toasts, once each and in their order and within the limit; nothing while the display is unavailable; and something whenever it is available and anything is live |
| SchedulerOrder.QueueFollowsPriority | src/daemon/mod.rs:824-835 | In every state nothing waits behind what it outweighs |
| SchedulerOrder.FirstComeFirstServed | src/daemon/mod.rs:824-835 | Over every run: of two that wait with one priority, the one submitted first stands first, whatever happened to them in between |
| SchedulerContents.ContentIsItsEdits | src/daemon/mod.rs:281-405 | Over every run, for live and recorded Notifications alike: the content is the last draft submitted for it with the updates accepted since, each field an update names having the named value and each other one keeping its own, and the time of the last jump is set exactly when it was closed as jumped |
| SchedulerContents.StepContents | src/daemon/mod.rs:281-405 | Over every call: what the answer says was submitted or updated has the new content, and every other Notification, live or newly recorded, keeps its content and its place in line |
| SchedulerContents.UpdateWrites | src/notification.rs:795-819 | A successful update of an id writes exactly what it names, and nothing else about any other Notification |
| SchedulerContents.KeyedUpdateWrites | src/daemon/mod.rs:357-371 | A successful update of a key does so to the Notification that holds the key |
| SchedulerAnswers.KeyedSubmitTells | src/daemon/mod.rs:288-323 | A submission under a key that an unexpired Notification holds is for that one, and a duplicate exactly if it says the same |
| SchedulerAnswers.FreshSubmitTells | src/daemon/mod.rs:325-355 | Any other is for the new id, and tells exactly whether that is displayed, waits or was given up |
| SchedulerAnswers.UpdateTells | src/daemon/mod.rs:373-405 | An update succeeds exactly on what is live and not due, and is a duplicate exactly if it changes nothing |
| SchedulerAnswers.KeyedUpdateTells | src/daemon/mod.rs:357-371 | A key stands for a Notification exactly while that is live and not due |
| SchedulerAnswers.CloseTells | src/daemon/mod.rs:707-725 | A close succeeds exactly on what is live and not due, removes it alone but for what is due, and records it last with the reason asked |
| SchedulerAnswers.KeyedDismissTells | src/daemon/mod.rs:407-420 | Dismissing by key closes and names the Notification that held the key when asked; it fails on a key nobody holds, changing nothing, and on a Notification that is due |
| SchedulerAnswers.ShutdownTells | src/daemon/mod.rs:443-455 | Shutting down leaves nothing live, and records what was not due with the name of the ending |
| SchedulerAnswers.BeginJumpTells | src/daemon/mod.rs:543-571 | Each of the five answers exactly when, read off the state before the call; an intent carries the Notification, its source, and the nonce that pins it |
| SchedulerAnswers.KeyedJumpTells | src/daemon/mod.rs:518-531 | A jump by key is one to the Notification that holds the key and is not due |
| SchedulerAnswers.CancelTells | src/daemon/mod.rs:573-596 | A jump is called off exactly if its intent is outstanding and its Notification is not due |
| SchedulerAnswers.CommitTells | src/daemon/mod.rs:598-617 | A jump is carried out exactly then, and its Notification is recorded last, as jumped |
| SchedulerStamps.StampsTell | src/notification.rs:677-835 | Over every call: a Notification keeps the time it was made and is stamped with the time of the call if anything about it changed, new ones and records are stamped with it, and the content revision moves whenever one is made, closed or rewritten |
| SchedulerStamps.DisplayedTells | src/daemon/mod.rs:771-786 | A live Notification counts as displayed after a call exactly if it did before, or is on screen once the time of the call has passed or when the call is done |
| SchedulerStamps.SettingsTell | src/daemon/mod.rs:457-516 | Availability and limits are what was last set, the time that of the last call not refused, and a call is refused for its time exactly if that lies before it, and one that names no Notification for nothing else |
| SchedulerDisplay.ActiveToastsStay | src/daemon/mod.rs:747-807 | No preemption: unless a presentation changes or the visible limit drops, surviving active toasts keep their order and newcomers come after them |
| SchedulerSteps.SortRankedSorts | src/daemon/mod.rs:824-835 | Sorting yields the ranked permutation of the queue |
| SchedulerSteps.RankedUnique | src/daemon/mod.rs:824-835 | There is only one ranked order of a set of live ids, so stability does not matter |
| SchedulerSteps.OverloadKeepsBest | src/daemon/mod.rs:809-822 | Overload keeps every pinned entry and exactly the best-ranked unpinned ones; the queue ends at its limit, unless more are pinned than the limit allows, and then at the number pinned |
| SchedulerSteps.AllPinned | src/daemon/mod.rs:812-816 | The victim the expect() demands is missing exactly when every queued entry is pinned |
| SchedulerForecast.PrepareForecast | src/daemon/mod.rs:676-705 | What preparing time will leave queued, active and live, worked out from the state before the call |
| SchedulerForecast.PanicsExactly | src/daemon/mod.rs:809-822 | A call reaches the panic if and only if it is a submission whose key no unexpired Notification holds, or new limits, and more of the entries that will then be queued are pinned than the (new) limit allows, all read off the state before the call |
| SchedulerForecast.LegalUnlessPanics | src/daemon/mod.rs:809-822 | Given a fresh id and a true enumeration of the live ids, the calls the run theorems allow are exactly those that do not panic |
| SchedulerExamples.LoweredLimitsPanic | src/daemon/mod.rs:474-508 | A run that panics: two queued jumps, and the limit lowered to one |
| SchedulerExamples.OverfullQueuePanics | src/daemon/mod.rs:288-323 | A run that panics with limits never changed: a keyed upsert requeues a pinned toast behind a full queue, and the next submission finds no victim |
| SchedulerRecords.FewJumpsNeverPanic | src/daemon/mod.rs:809-822 | With no more outstanding jumps than the queue may hold, no operation reaches that panic |
| SchedulerRecords.EveryCloseIsCaused | src/daemon/mod.rs:676-745 | Every Notification an operation closes has the cause its reason names: jumped only by committing the outstanding intent; a pinned one is never timed out or suppressed (in states with exact timers) |
| SchedulerRecords.StepRecords | src/daemon/mod.rs:727-745 | From a drained queue, the closed queue ends with the newest records the operation made, at most as many as were live |
| SchedulerForecast.LimitsKeepRecordsIff | src/daemon/mod.rs:474-508 | New limits close exactly the due toasts and what no longer fits, and keep every record exactly when the old queue has room for the first and the new queue for all: counted on the state before the call |
| SchedulerForecast.RecordsKeptExactly | src/daemon/mod.rs:474-508 | From a drained queue, a call loses a record if and only if it lowers the limits so far that the due and the suppressed, counted before the call, outnumber the new capacity |
| SchedulerExamples.LoweredLimitsLoseOne | src/daemon/mod.rs:474-508 | A run that loses one: five wait, limits of one and one suppress four, and three records fit |
| SchedulerForecast.TurnKeeps | src/daemon/mod.rs:262-267 | A call followed by a drain keeps the invariant, and keeps every record forwarded exactly when it loses none |
| SchedulerRecords.CloseCount | src/daemon/mod.rs:262-267 | What an operation closes, plus what stays live, is bounded by what was live and new |
| SchedulerForecast.NoLostLifecycle | src/daemon/mod.rs:262-267 | If the caller drains after each operation and no call is one of those, every id ever submitted is at all times live or forwarded exactly once with a reason, and the live count stays within the limits |
| SchedulerRecords.LogTellsAll | src/daemon/mod.rs:727-745 | Every submitted id is live or logged as closed exactly once, never both |
| SchedulerLifecycle.ResolvedAtMostOnce | src/daemon/mod.rs:573-617 | An intent is committed or cancelled at most once: after either succeeds, every later attempt on its nonce, anywhere in any run, fails |
| SchedulerLifecycle.SpentForever | src/daemon/mod.rs:518-617 | A resolved nonce never becomes outstanding again in any run |
| SchedulerLifecycle.ResolvingSpends | src/daemon/mod.rs:573-617 | A successful commit or cancel spends the nonce |
| SchedulerLifecycle.NewIntentIsFresh | src/daemon/mod.rs:543-571 | A new intent carries a nonce no earlier one had |
| SchedulerOperations.UpsertKeeps | src/daemon/mod.rs:288-323 | A keyed upsert keeps the invariant and exact timers, whatever presentation it changes to |
| SchedulerOperations.SubmitNewKeeps | src/daemon/mod.rs:325-355 | A fresh submit keeps them too and ends with the queue within its limit |
| SchedulerOperations.ApplyUpdateKeeps | src/daemon/mod.rs:384-405 | A partial update keeps the invariant always, and exact timers if and only if it does not change the content of a displayed, pinned toast whose resulting timeout is finite |
| SchedulerOperations.UpdateLimitsKeeps | src/daemon/mod.rs:474-508 | New limits keep the invariant, with the active list and the queue within them |
| SchedulerOperations.CloseTailKeeps | src/daemon/mod.rs:707-745 | Closing one Notification removes exactly it, logs it once, and keeps the invariant |
| SchedulerOperations.ShutdownKeeps | src/daemon/mod.rs:443-455 | Shutdown closes everything with the one reason, in whatever order the map yields |
| SchedulerOperations.BeginJumpKeeps | src/daemon/mod.rs:543-571 | Pinning keeps the invariant and exact timers, so a pinned timer does not run, and loses nothing |
| SchedulerOperations.CancelTailKeeps | src/daemon/mod.rs:573-596 | Unpinning keeps them too, so the timer runs again exactly when the toast is displayed |
| LiveSchedulers.LiveScheduler.constructor | src/daemon/mod.rs:257-279 | The object starts valid and empty |
| LiveSchedulers.LiveScheduler.CloseInner | src/daemon/mod.rs:727-745 | The view becomes exactly that of the specification function: closing in place |
| LiveSchedulers.LiveScheduler.Rebalance | src/daemon/mod.rs:747-807 | The view becomes exactly that of the specification function: the three phases with their loops |
| LiveSchedulers.LiveScheduler.PrepareTime | src/daemon/mod.rs:676-705 | Stays valid and takes the object exactly where the operation's specification function does: fails only on a backwards clock, changing nothing; otherwise expires and rebalances |
| LiveSchedulers.LiveScheduler.EnforcePendingLimit | src/daemon/mod.rs:809-822 | The view becomes exactly that of the specification function: the victim loop, given that not too many are pinned; it returns exactly the suppressed ids |
| LiveSchedulers.LiveScheduler.Submit | src/daemon/mod.rs:281-355 | Stays valid and takes the object exactly where the operation's specification function does: outcome and state of submit on all paths, including duplicates, upserts and suppression, for every call that does not panic |
| LiveSchedulers.LiveScheduler.UpdateByKey | src/daemon/mod.rs:357-371 | Stays valid and takes the object exactly where the operation's specification function does: the key is resolved after time advances; when it succeeds, the Notification holding the key has exactly the fields the update names rewritten, and no other Notification says anything new |
| LiveSchedulers.LiveScheduler.Update | src/daemon/mod.rs:373-382 | Stays valid and takes the object exactly where the operation's specification function does: by id; when it succeeds, that Notification has exactly the fields the update names rewritten, and no other says anything new |
| LiveSchedulers.LiveScheduler.ApplyUpdate | src/daemon/mod.rs:384-405 | Stays valid and takes the object exactly where the operation's specification function does: in place; when it succeeds, exactly the fields the update names are rewritten |
| LiveSchedulers.LiveScheduler.DismissByKey | src/daemon/mod.rs:407-420 | Stays valid and takes the object exactly where the operation's specification function does: the key is resolved before time advances |
| LiveSchedulers.LiveScheduler.Dismiss | src/daemon/mod.rs:422-429 | Stays valid and takes the object exactly where the operation's specification function does: reason Dismissed |
| LiveSchedulers.LiveScheduler.FailRendering | src/daemon/mod.rs:433-440 | Stays valid and takes the object exactly where the operation's specification function does: reason RenderFailed |
| LiveSchedulers.LiveScheduler.Shutdown | src/daemon/mod.rs:443-455 | Stays valid and takes the object exactly where the operation's specification function does: empties the map, for the enumeration it returns |
| LiveSchedulers.LiveScheduler.SetDisplayAvailable | src/daemon/mod.rs:457-469 | Stays valid and takes the object exactly where the operation's specification function does: availability and rebalance |
| LiveSchedulers.LiveScheduler.UpdateLimits | src/daemon/mod.rs:474-508 | Stays valid and takes the object exactly where the operation's specification function does: deferral loop, enforcement and trimming of the closed queue, for every call that does not panic |
| LiveSchedulers.LiveScheduler.Advance | src/daemon/mod.rs:510-516 | Stays valid and takes the object exactly where the operation's specification function does: time only |
| LiveSchedulers.LiveScheduler.BeginJumpByKey | src/daemon/mod.rs:518-531 | Stays valid and takes the object exactly where the operation's specification function does: by key |
| LiveSchedulers.LiveScheduler.BeginJump | src/daemon/mod.rs:533-541 | Stays valid and takes the object exactly where the operation's specification function does: by id |
| LiveSchedulers.LiveScheduler.BeginJumpInner | src/daemon/mod.rs:543-571 | Stays valid and takes the object exactly where the operation's specification function does: all five outcomes |
| LiveSchedulers.LiveScheduler.CancelJump | src/daemon/mod.rs:573-596 | Stays valid and takes the object exactly where the operation's specification function does: only the outstanding nonce |
| LiveSchedulers.LiveScheduler.CommitJump | src/daemon/mod.rs:598-617 | Stays valid and takes the object exactly where the operation's specification function does: checked before time advances |
| LiveSchedulers.LiveScheduler.GetDisplayPlan | src/daemon/mod.rs:620-633 | Over the fields, for every valid scheduler: the plan shows exactly the Attention or the active toasts that are on screen, once each and in order, is not empty while the display is available and anything is live, and carries the revision |
| LiveSchedulers.LiveScheduler.DrainClosed | src/daemon/mod.rs:660-662 | Stays valid and takes the object exactly where the operation's specification function does: hands over the queue, which is then empty, and exactly what it hands over counts as forwarded |
| LiveSchedulers.LiveScheduler.Close | src/daemon/mod.rs:707-725 | Stays valid and takes the object exactly where the operation's specification function does: close for a reason |
| LiveSchedulers.NothingToBalance | src/daemon/mod.rs:698-703 | Skipping rebalance when nothing is live is no shortcut: it would change nothing |
| ResultCaches.RequestResultCache.constructor | src/protocol.rs:1153-1161 | Starts empty and valid |
| ResultCaches.RequestResultCache.Expire | src/protocol.rs:1213-1225 | For any times, drops the stale prefix of the recency list, whose effect on every later answer `ResultCacheExact.LookupsAnsweredExactly` states by age alone |
| ResultCaches.RequestResultCache.Touch | src/protocol.rs:1206-1211 | Moves the id to the end of the order, which stays a duplicate-free list of the keys |
| ResultCaches.RequestResultCache.Lookup | src/protocol.rs:1163-1177 | For any times, answers and renews as the recency list does; `ResultCacheExact.LookupsAnsweredExactly` says when that is a replay, without the list |
| ResultCaches.RequestResultCache.Insert | src/protocol.rs:1179-1196 | For any times, the recency list after expiry, renewal and eviction |
| ResultCaches.RequestResultCache.EvictExcess | src/protocol.rs:1191-1195 | The eviction loop ends, with the newest slots kept |
| ResultCacheLaws.ApplyKeeps | src/protocol.rs:1163-1225 | For any times: no id twice, never more than the capacity |
| ResultCacheLaws.FrontExpiryIsExact | src/protocol.rs:1213-1225 | Expiring from the front removes exactly the too-old entries if and only if no stale slot sits behind a fresh one |
| ResultCacheLaws.CacheIsBoundedMemory | src/protocol.rs:1139-1226 | For every history with nondecreasing times the answers are those of an unbounded memory seen through age and capacity |
| ResultCacheLaws.StepMirrors | src/protocol.rs:1163-1196 | One operation keeps cache and memory in step |
| ResultCacheExact.LookupsAnsweredExactly | src/protocol.rs:1139-1226 | For every history with nondecreasing times: a lookup replays a response if and only if that is what the last insert of its id stored, under the same payload, the last operation that touched the id came less than the time to live before, and fewer than capacity other ids were touched since; it is refused under another payload and misses otherwise |
| ResultCacheLaws.StoredIsReplayed | src/protocol.rs:1163-1196 | For any times: a stored response is replayed to the same payload and refused to others until its own age reaches the limit at an access or capacity other ids were touched |
| ResultCacheLaws.StaleReplay | src/protocol.rs:1213-1225 | Times that run backwards can replay a response past its time to live: a concrete history of the cache |
| RequestExecution.HandlersNeverOverlap | src/daemon/runtime.rs:758-805 | Under every interleaving of any number of workers, two handler runs for one request id never overlap, and no id being handled is cached |
| RequestExecution.StepKeeps | src/daemon/runtime.rs:770-805 | Each step of each worker keeps the lock discipline and the serial record of runs |
| RequestExecution.StoredIsNotExecutedAgain | src/daemon/runtime.rs:780-803 | Once a response is stored, under every interleaving no handler starts for its id and every answer is the stored bytes or a refusal, until age or capacity lets the entry go |
| RequestExecution.CachedIsOnlyReplayed | src/daemon/runtime.rs:782-791 | The same from any state in which the id is cached |
| RequestExecution.OnlyStoringRemembers | src/daemon/runtime.rs:780-805 | However a handler run ends, its id is cached afterwards exactly when the run ended by storing; the other endings are an oversized response and a dropped task |
| RequestExecution.OversizedIsExecutedAgain | src/daemon/runtime.rs:800-803 | After an oversized response every request under its id misses |
| RequestExecution.StaleResponseIsSent | src/daemon/runtime.rs:781-803 | A reachable interleaving of three workers in which a response twelve ticks old is sent although responses live for five, because each worker reads the clock before its handler runs |
| RequestExecution.RepliesAreFresh | src/daemon/runtime.rs:758-805 | In every interleaving in which the stamps used at the cache do not run backwards, a request is answered from the cache if and only if its id was stored last under its payload and that was stored or last replayed under a stamp less than the time to live older, with fewer other ids used since than the cache holds; and then with what was stored |
| RequestExecution.AccessedAt | src/daemon/runtime.rs:781-803 | Every access of the shared cache is the access of one worker under its own stamp, in the order of the run |
| RequestExecution.NeverStuck | src/daemon/runtime.rs:780-805 | While a request is unanswered some worker can take a step of its own |
| RequestExecution.Exclusive | src/daemon/runtime.rs:773-780 | Two workers past the lock never handle one id |
| RendererSessionStores.RendererSessions.constructor | src/render.rs:225-238 | Starts valid with an empty history |
| RendererSessionStores.RendererSessions.Create | src/render.rs:242-289 | All outcomes as events; on any failure the display is absent |
| RendererSessionStores.RendererSessions.Redeem | src/render.rs:293-333 | Succeeds if and only if the history makes the token redeemable now; yields that session's generation and latest content; else the error says which: another display's token, one redeemed before, one whose session ended or was seen expired unredeemed, or one neither store knows, and the first two of its own are true of the history |
| RendererSessionStores.RendererSessions.Update | src/render.rs:335-358 | Keeps the newest content, also before redemption; unknown exactly when no session is live, full exactly when a connected channel is, and disconnected from then on when it is gone |
| RendererSessionStores.RendererSessions.Terminate | src/render.rs:360-377 | Ends the live session |
| RendererSessionStores.RendererSessions.RendererExited | src/render.rs:381-406 | Only the current generation's exit ends a session; a stale one changes nothing |
| RendererSessionStores.RendererSessions.ExpireCredentials | src/render.rs:440-458 | Ends exactly the unredeemed sessions whose time is up |
| RendererSessionStores.RendererSessions.Retire | src/render.rs:472-481 | The tombstones are the last 2 * max_sessions retired tokens |
| RendererSessionStores.RendererSessions.UniqueToken | src/render.rs:429-438 | The first of four draws that names no token in use, an error at the first draw that fails before, and a collision exactly when all four name one in use |
| RendererSessionStores.RedeemableMeans | src/render.rs:293-333 | A token is redeemable exactly when issued by the display's latest creation, with no redemption, end or expiry seen since |
| RendererSessionStores.OneStreamPerSession | src/render.rs:318-333 | No session is redeemed twice, in any history |
| RendererSessionStores.TokenSpentOnce | src/render.rs:318-333 | A token redeemed twice was issued anew in between |
| RendererSessionStores.ReplacedChildIsStale | src/render.rs:379-394 | The exit of a replaced child names an old generation |
| RendererSessionStores.CredentialsAreRedeemable | src/render.rs:300-313 | Live credentials are exactly the redeemable tokens, so the guards behind the lookup never fire |
| RendererSessionStores.CredentialsBounded | src/render.rs:208-216 | Never more live credentials than displays |
| RendererSessionStores.TombstonesTell | src/render.rs:483-490 | A tombstone never blames a token for what did not happen: a consumed token was redeemed in the session it was issued for, a stale one was issued and its session ended, replaced or seen expired with no redemption in between |
| ControlParsing.ControlParser.Submitted | src/tmux/control.rs:45-47 | Queues the ticket |
| ControlParsing.ControlParser.Begin | src/tmux/control.rs:75-91 | All four outcomes of a begin record |
| ControlParsing.ControlParser.Finish | src/tmux/control.rs:93-109 | A completion takes the active command even when the numbers differ |
| ControlParsing.ControlParser.ReceiveLine | src/tmux/control.rs:49-73 | All outcomes of one line |
| ControlCorrelation.TicketsConserved | src/tmux/control.rs:24-28 | However submissions and lines interleave, tickets answered, active and pending are the tickets submitted, in order |
| ControlCorrelation.AcceptedIffFramed | src/tmux/control.rs:49-109 | A stream is accepted if and only if it is a sequence of frames with enough commands waiting, and each reply is its own frame's output |
| ControlFrames.FrameRead | src/tmux/control.rs:112-122 | A frame line with a time, a number and flags is read as that number if it fits 64 bits, and refused otherwise |
| ControlFrames.ReplyRead | src/tmux/control.rs:49-122 | What tmux writes for a command, its output between a begin line and an end or error line, is read as the reply to the oldest ticket with exactly that output, and as a success exactly if it ends with an end line |
| ControlCorrelation.TranscriptRuns | src/tmux/control.rs:49-109 | Every well-formed stream is accepted with those replies, notifications interleaved anywhere |
| ControlCorrelation.InsideRuns | src/tmux/control.rs:60-71 | Inside a frame lines are accepted exactly while the output fits its limits |
| ControlConnections.ControlConnection.Consume | src/tmux/production.rs:695-709 | One line's effect on parser, results and coalesced events |
| ControlConnections.ControlConnection.EnqueueEvent | src/tmux/production.rs:712-719 | Repeated events are one event |
| ControlConnections.ControlConnection.WaitFor | src/tmux/production.rs:674-693 | The reply to the oldest ticket, leaving nothing behind |
| ControlConnections.ControlConnection.Collect | src/tmux/production.rs:645-655 | The replies of a batch in registration order |
| ControlConnections.ControlConnection.Run | src/tmux/production.rs:624-656 | After a successful batch nothing is pending, active or left over, and the combined result is that of its own commands |
| ControlConnections.BatchAnswersItsFrames | src/tmux/production.rs:624-656 | The lines a batch read are exactly its commands' frames, one reply each |
| FrameDecoding.FrameDecoder.Push | src/protocol.rs:576-599 | One push against the newline split of held and new bytes; the buffer stays newline-free and bounded |
| FrameDecoding.FrameDecoder.AppendBounded | src/protocol.rs:605-613 | Appends only what fits |
| FrameDecoding.ChunkingIsInvisible | src/protocol.rs:572-599 | For every way to cut a stream into pushes: all succeed exactly when no newline-free run is too long, and then frames and leftover are those of the whole stream |
| FrameDecoding.PiecesUnique | src/protocol.rs:572-599 | The split of a stream into newline-free pieces is unique |
| PlainText.NormalizePlainText | src/notification.rs:891-916 | The loop computes the normalized text, and ends |
| PlainText.ConsumeCsi | src/notification.rs:947-956 | Stops after the final byte |
| PlainText.ConsumeOsc | src/notification.rs:958-971 | Stops after BEL or ST |
| PlainText.ConsumeAfterEscape | src/notification.rs:918-945 | Tells whether the escape started a sequence, and where it ends |
| PlainText.NormalizedIsClean | src/notification.rs:973-987 | No control or listed invisible character survives but newline |
| PlainText.UnchangedIffClean | src/notification.rs:891-916 | Exactly the clean texts are unchanged; normalizing is idempotent |
| PlainText.ControlSequenceRemoved | src/notification.rs:947-956 | Every control sequence of section 5.4 of ECMA-48 is removed whole, in both introducer forms |
| PlainText.OperatingSystemCommandRemoved | src/notification.rs:958-971 | So is every operating system command ended by BEL or ST |
| PlainText.NormalizedSplits | src/notification.rs:891-916 | Texts that start no escape sequence are normalized one after the other, unless a carriage return and line feed are torn apart |
| PlainText.CharacterNormalized | src/notification.rs:891-916 | Wherever they stand, a tab becomes four spaces, a carriage return, a line feed or both one newline, any other control or invisible formatting character a replacement character, and the rest stays |
| Wire.AcceptedIff | src/protocol.rs:290-307 | A wire form becomes a draft if and only if its texts fit once normalized, its ids and source are well-formed and an Attention has a source; and then each field of the draft comes from its own wire field |
| Wire.UpdateAcceptedIff | src/protocol.rs:337-356 | An update is accepted if and only if its texts fit, and each field comes from its own wire field |
| Wire.TimeoutSent | src/protocol.rs:472-478 | A timeout is sent in whole milliseconds, cut off and not rounded, and one too long for 64 bits as the longest |
| Wire.DraftRoundTrips | src/protocol.rs:275-307 | A built draft survives the wire exactly when its timeout is a whole number of milliseconds that fits 64 bits |
| Wire.AcceptedRoundTrips | src/protocol.rs:290-307 | What was once accepted from the wire is a fixed point of the round trip |
| Wire.AcceptedIsBuilt | src/notification.rs:551-600 | Everything accepted is clean and within every bound |
| Wire.UpdateRoundTrips | src/protocol.rs:323-356 | A built update survives exactly when its timeout does and it does not clear the position |
| Wire.SourceExact | src/protocol.rs:388-412 | What conversion accepts is a properly built source, and a properly built source is accepted unchanged |
| Wire.TmuxIdExact | src/notification.rs:872-887 | Stable ids are accepted exactly when prefixed digits within the bound |
| HookCommands.DecodeSingleQuotedWord | src/hooks.rs:664-681 | The decoding loop, for every word but a lone quote |
| HookCommands.DecodeUndoesQuote | src/hooks.rs:531-533 | Decoding undoes shell quoting for every string |
| HookCommands.CommandRecovered | src/hooks.rs:648-662 | The command written for an executable is read back as it, whatever its path |
| HookCommands.PanicsExactlyOnLoneQuote | src/hooks.rs:665-668 | Parsing slices out of range on exactly one command line |
| ShellWords.CommandRuns | src/hooks.rs:514-533 | A shell reads the command line written for any executable as that executable and the two fixed arguments, whatever its path contains |
| ShellWords.RecognizedRunsIff | src/hooks.rs:648-681 | A line that is recognized as an executable's is read so by a shell if and only if it is the line that is written for it, or has the path as it is |
| ShellWords.MisreadCommand | src/hooks.rs:664-681 | The others exist: every line with a lone quote before a quoted one is recognized and read differently |
| HookLaws.OwnedRunsIff | src/hooks.rs:625-646 | A Codex handler taken for tmnotify's runs the program it was taken for if and only if its line is one of those two |
| HookLaws.AmbiguousTaken | src/hooks.rs:625-646 | So a handler that is not can be taken for tmnotify's and be removed, though ambiguous commands are promised to be left alone (src/hooks.rs:3-5) |
| Hooks.HandlerRecognized | src/hooks.rs:514-529 | A written handler is recognized as its executable exactly when the path is absolute and names the program |
| HookLaws.RemoveKeepsOthers | src/hooks.rs:535-565 | Removing leaves none of ours and, per event, exactly the other records in order |
| HookLaws.AddKeepsOthers | src/hooks.rs:478-512 | Adding inserts one record among ours, keeping the order of the rest, and disturbs no other record of any event |
| HookLaws.InstallPlaces | src/hooks.rs:452-468 | After an install every wanted event has exactly one record of ours, others none, and nobody else's record moved |
| HookLaws.InstalledHandler | src/hooks.rs:514-529 | Each wanted event gets one handler, narrowed to an agent that needs input for Claude's notification event and to nothing otherwise, and it runs the executable with the two fixed arguments |
| HookShapes.RemoveKeepsRest | src/hooks.rs:535-565 | Removing leaves every other field of the file, every event that is no list, and of each list the groups in order with all their other fields; what is gone held no handler but tmnotify's |
| HookShapes.AddKeepsRest | src/hooks.rs:478-512 | Adding changes that one event only, by that one handler in a group that otherwise stands as it stood, or by a new group at the end |
| HookShapes.InstallKeepsRest | src/hooks.rs:452-468 | Installing leaves every field of the file but the hooks as it is |
| HookLaws.InstallIsInSync | src/hooks.rs:571-588 | A successful install or sync is in sync |
| HookLaws.InstallIsIdempotent | src/hooks.rs:452-468 | Installing again on the result changes nothing |
| HookLaws.InSyncCoversIffNoDuplicates | src/hooks.rs:571-588 | Being in sync means every wanted event is covered exactly when no event has two of ours |
| HookLaws.InSyncWithoutHandler | src/hooks.rs:571-588 | A concrete configuration that is in sync and lacks a wanted handler |
| HookLaws.RemoveUndoesAdd | src/hooks.rs:478-565 | Removing gives back the groups a handler was added to |
| ToastLayout.PlannedToasts | src/daemon/reconcile.rs:589-647 | The planning loop with its six slot counters |
| ToastLayout.PlannedInside | src/daemon/reconcile.rs:842-872 | Every planned toast lies inside its window |
| ToastLayout.PlannedApart | src/daemon/reconcile.rs:842-872 | Two toasts under one anchor keep the gap, also one from the top and one from the bottom |
| ToastLayout.PlannedAnchored | src/daemon/reconcile.rs:842-872 | Every planned toast touches the side it is placed on, or is centred, the outermost of a placement the top or bottom as well; it has the size of the policy or, in a narrow window, is one row of its width, and lies above those before it |
| ToastLayout.PlannedStacks | src/daemon/reconcile.rs:842-872 | Each toast lies exactly one gap further in than the one its placement was given before |
| ToastLayout.CapacityIsMost | src/daemon/reconcile.rs:604-613 | The capacity is the most toasts that fit above each other with their gaps, within the configured number |
| ToastLayout.ShownFits | src/daemon/reconcile.rs:604-613 | What is shown is the first in stack order, as many as the capacity allows, and nothing in too small a window |
| ToastLayout.LayoutShows | src/toast.rs:130-222 | All toasts are shown if they fit; if not, the first in line fill all but the innermost slot, and that tells how many wait |
| ToastLayout.LayoutAnchored | src/toast.rs:184-240 | The first slot touches its side and edge and each other one lies exactly one gap further in |
| ToastLayout.LayoutAccounts | src/toast.rs:169-182 | Shown plus waiting is the total |
| ToastLayout.LayoutFits | src/toast.rs:184-222 | The slots lie inside the viewport and keep the gap |
| ToastLayout.OrderedSorts | src/toast.rs:163-167 | The stack is the sorted permutation of the toasts |
| Backend.ProductionBackend.Reconcile | src/tmux/production.rs:483-518 | Whatever tmux does: every window reported applied shows exactly its desired displays in id, kind, geometry and content; every display that is dropped or made anew had its old pane killed, as tmux confirmed during this pass; the pass is without failure, and then converges, if and only if tmux can name everything in the plan and neither tmux nor a renderer session answered that something could not be done; and over a converged plan nothing is said to tmux |
| Backend.ProductionBackend.ReconcileWindow | src/tmux/production.rs:142-181 | The same for one window, leaving other windows alone but for displays it takes over; it succeeds exactly if nothing went wrong |
| Backend.ProductionBackend.ReconcileDisplay | src/tmux/production.rs:161-179 | One display: if it stood there in this form its renderer is told exactly when the content differs; if not, its old pane is killed, it gets a new session with the content, and the last thing said to tmux placed its pane |
| Backend.ProductionBackend.CreateDisplay | src/tmux/production.rs:183-268 | Registered, with its pane placed and a session holding its content, or undone, on every failure path |
| Backend.ProductionBackend.MakePane | src/tmux/production.rs:206-255 | A pane is returned exactly if tmux made it and put it where it was wanted, a toast by splitting and then breaking out at the desired geometry, an Attention by a new pane there; else no pane is left, or tmux was asked at once to kill it |
| Backend.ProductionBackend.UpdateDisplay | src/tmux/production.rs:288-348 | Exactly the update's commands are sent, in one batch, and the geometry is registered exactly if that succeeds; then the renderer is told of the content exactly if it differs, and it is registered exactly if that succeeds; only this display changes |
| Backend.ProductionBackend.CloseDisplays | src/tmux/production.rs:350-376 | If any listed display is registered, one batch is sent that kills exactly the panes of those that are, and they are forgotten, and success is reported, exactly if tmux confirms it; if none is, nothing is sent |
| Backend.ProductionBackend.PruneMissing | src/tmux/production.rs:378-391 | Forgets exactly the displays whose panes vanished, and no pane of its own is lost track of otherwise |
| Backend.ProductionBackend.CloseAttentionBeforeJump | src/tmux/production.rs:393-401 | Succeeds exactly if tmux confirms one batch that kills exactly the panes of the Attentions, or there are none; then exactly the toasts are left, else everything is |
| Backend.ProductionBackend.CloseStale | src/tmux/production.rs:486-502 | Leaves only planned windows, but for those reported failed |
| Backend.UpdateReaches | src/tmux/production.rs:288-335 | The emitted commands carry the registered geometry to the desired one exactly unless a size must change and a desired dimension is zero; none are emitted exactly when nothing changes |
| Backend.UpdateLandsIff | src/tmux/production.rs:288-335 | Where the same commands take a pane that is not where the registry has it: to the desired geometry exactly when each coordinate is the registered one or stopped by an edge, and sizes are sent or already right |
| Backend.RetryDrifts | src/tmux/production.rs:288-335 | After a batch that fails behind its first move, sending it again misses the desired geometry, which the registry then records |
| Backend.RealizedKept | src/tmux/production.rs:483-518 | Working on one window undoes no other applied window, ids being unique across the plan |
| PaneLedger.LedgerThrough | src/tmux/production.rs:288-376 | Over the whole life of the object, for an exchange that creates nothing: no command is ever about a pane that tmux had not made for this object, every registered pane was, and every pane made is registered, killed, given up as soon as it was made, or no longer listed by tmux |
| PaneLedger.TrackedPlaced | src/tmux/production.rs:183-268 | The same when a pane is placed and registered |
| PaneLedger.TrackedNotPlaced | src/tmux/production.rs:183-268 | And when placing it fails |
| PaneLedger.ClosedAccounted | src/tmux/production.rs:350-376 | After a confirmed closing every display registered before keeps its pane or had it killed |
| WindowPolicyLaws.TickKeeps | src/daemon/reconcile.rs:341-516 | Whatever the backend answers: a tick fails only on a backwards clock, changing nothing in the scheduler; afterwards the scheduler may display exactly when some window is confirmed, the retry counters are the failed reports since the last applied one or reset, and confirmed windows were last reported showing something |
| WindowPolicyLaws.GivesUpExactly | src/daemon/reconcile.rs:480-506 | Notifications are given up if and only if this tick got a report, nothing is confirmed after it, and every window with content has failed three times since it was last applied or reset, this report included; then only Notifications on display are recorded as render-failed, none of those displayed stays live, and the attempts are forgotten |
| WindowPolicyLaws.GivesUpIffExhausted | src/daemon/reconcile.rs:487-496 | The saturating counters decide precisely that |
| WindowPolicyLaws.DisplayIsShown | src/daemon/reconcile.rs:464-516 | The scheduler may display only while connected and with a window whose last applied report showed something |
| WindowPolicyLaws.WaitingTick | src/daemon/reconcile.rs:365-369 | Until the next attempt is due, the answer of the backend changes nothing |
| WindowPolicyLaws.BackoffDoubles | src/daemon/reconcile.rs:787-795 | The n-th failed attempt in a row puts off the next by a tenth of a second doubled n - 1 times, five seconds at most |
| WindowPolicyLaws.DisplayedMeans | src/daemon/reconcile.rs:940-945 | The Notifications that are given up are exactly those on screen once the display is available |
| WindowPolicyAsks.TickActs | src/daemon/reconcile.rs:341-516 | Told by what was held before and the answers alone: the topology is asked for exactly when an event, doubt or a due connection gives reason to, and taken from the snapshot or the connection is lost; with eligible windows the plan is put to the backend exactly when the topology was in doubt or asked for, the plan moved, the content revision changed or a retry is due; the report is counted window by window, and a window then shows something exactly if it was applied with content, or not applied and showed something before |
| WindowPolicyAsks.TopologyTaken | src/daemon/reconcile.rs:365-398 | After every tick, failed ones too, the topology in force is the snapshot if it was asked for and came |
| WindowPolicyAsks.PollsTell | src/daemon/reconcile.rs:348-363 | Exactly if the first answer is a topology change is the topology in doubt and are the attempts forgotten, and exactly if a loss follows only topology changes within the first 128 answers is the connection lost |
| WindowPolicyAsks.StatusTells | src/daemon/reconcile.rs:797-818 | The answer names a lost connection, and all applied exactly if no window has a failure standing |
| WindowPolicyAsks.RetriesScheduled | src/daemon/reconcile.rs:767-774 | A window that failed is tried again after fifty milliseconds for each attempt made |
| WindowPolicyAsks.DueMeans | src/daemon/reconcile.rs:434-463 | A retry is due exactly when some window that failed once or twice only has waited that long |
| DaemonLife.DaemonNeverGuesses | src/daemon/reconcile.rs:341-516 | Over every life of the daemon, ticks and scheduler calls interleaved: the scheduler may display only while some connected window was last reported showing something, and if any Notification was ever given up, some report right before a reset had found every window with content out of attempts |
| WindowReconciliation.WindowReconciler.constructor | src/daemon/reconcile.rs:298-314 | Starts disconnected, with nothing confirmed and no attempts |
| WindowReconciliation.WindowReconciler.Tick | src/daemon/reconcile.rs:341-516 | The object and the scheduler end exactly where the policy puts them for the given answers, acting on every answer as `WindowPolicyAsks.TickActs` says, and the give-up law holds of the call itself: what is newly recorded as render-failed was on display, nothing of it stays live, and the reports up to this tick had exhausted this tick's content windows |
| WindowReconciliation.WindowReconciler.PollEvents | src/daemon/reconcile.rs:348-363 | At most 128 events are read, in order; told by the answers alone, a topology change puts the topology in doubt and forgets the attempts, and a lost connection ends the reading |
| WindowReconciliation.WindowReconciler.Refresh | src/daemon/reconcile.rs:365-398 | Connects when due or refreshes a doubtful topology; tells whether connected afterwards |
| WindowReconciliation.WindowReconciler.Present | src/daemon/reconcile.rs:434-516 | The part with eligible windows: what was displayed, noticed, reported and concluded |
| WindowReconciliation.WindowReconciler.NoWindows | src/daemon/reconcile.rs:402-432 | Without eligible windows no window is visible or confirmed, the scheduler may not display, and nothing is given up |
| WindowReconciliation.WindowReconciler.Conclude | src/daemon/reconcile.rs:483-516 | Gives up exactly when the policy does, then tells the scheduler |
| WindowReconciliation.WindowReconciler.ApplyReport | src/daemon/reconcile.rs:731-765 | Both loops of a report: confirmed windows and counters are those of the report as a whole; a failed update keeps a confirmed window |
| WindowReconciliation.WindowReconciler.RecordFailure | src/daemon/reconcile.rs:767-774 | One more attempt, saturating at 255, and the later retry |
| WindowReconciliation.WindowReconciler.Disconnect | src/daemon/reconcile.rs:776-785 | Nothing stays confirmed, the next attempt is put off by the backoff, and the backoff doubles up to five seconds |
| WindowReconciliation.WindowReconciler.GiveUp | src/daemon/reconcile.rs:497-503 | Closes the listed Notifications one by one; returns those it closed itself |

## Left out

- SchedulerModel: the pending limit is not enforced by a keyed upsert, as in the source (src/daemon/mod.rs:288-323), so the queue's length is bounded only after a fresh submit or new limits; the total live count is bounded always.
- LiveSchedulers.LiveScheduler.Submit: requires an unused id and a call that does not panic in the source, by the condition `SchedulerForecast.PanicsExactly` proves exact.
- LiveSchedulers.LiveScheduler.UpdateLimits: requires the same.
- SchedulerTimeouts.ExactTimeouts: excludes runs with a partial update of a pinned, displayed toast, for which it is false; `SchedulerOperations.ApplyUpdateKeeps` is the exact condition.
- SchedulerForecast.NoLostLifecycle: excludes exactly the calls that lose a record (`SchedulerForecast.RecordsKeptExactly`).
- Wall-clock timestamps are stored and never compared; hidden_at belongs to the history database and is not modelled.
- LiveSchedulers.LiveScheduler.Shutdown: the order in which the hash map yields ids is arbitrary and returned as a ghost.
- RequestExecution: decoding a frame happens before the lock and touches nothing shared, so a worker starts with a decoded request; a failure to encode a reply ends a worker like a dropped task.
- RendererSessionStores.RendererSessions.Redeem: the bounded channel is not modelled beyond whether a send succeeds; the guards behind the credential lookup are proved unreachable.
- RendererSessionStores.RendererSessions.Create: token bytes and their hexadecimal form are opaque tokens drawn from the generator.
- ControlConnections.ControlConnection.Run: encoding the batch and writing it succeed or fail as parameters; the process, its pipes and the reader thread are not modelled. next_event is left out.
- Backend.ProductionBackend.Reconcile: what it reports is the registry; where a pane really is after a batch that failed half-way is the subject of `Backend.UpdateLandsIff` and `Backend.RetryDrifts` only.
- Backend.ProductionBackend: the version probe, topology parsing and the commands of a jump are left out; renderer arguments are reduced to the display id. Calls the renderer broker makes between two backend operations are not interleaved.
- WindowReconciliation.WindowReconciler.Tick: which windows have content, and whether the plan moved, are part of the answers it is given, because they depend on animation; layout is proved separately in `ToastLayout`. The next wake-up time is not reported.
- HookCommands.DecodeSingleQuotedWord: excludes the lone quote, on which the source panics; `Hooks.OwnedExecutable` treats such a handler as not owned.
- HookLaws: JSON objects are unordered maps edited as values, so the in-place edit and the order of keys in the file are not captured; the order of handlers within an event is.
- Wire.DraftRoundTrips: JSON encoding itself is left out, so a nested optional timeout is compared at the level of structures.
- ShellWords: the shell is the part of its token recognition that needs no expansion; a line with unquoted special characters has no words in it.
- PaneLedger: pane ids are names, as tmux gives them; that tmux does not reuse one is not assumed.
- PlainText: character width and segmentation are the library's.
- SQLite history, configuration files, the command line, provider adapters, terminal drawing, animation easing, sockets, signals and shutdown budgets are not modelled: they are library calls, flat tables or floating point.
