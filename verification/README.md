# Render protocol of the prompt daemon

A verified model of how the daemon renders a prompt for a shell: request handlers, segment workers,
result publishers, marker timers, repaints, config reloads and process watchers act on one session
at the same time, and share an update history, a reload gate, a table of engines and render
generations, a table of render handles, and a set of pending placeholders.

The model has two layers.

- **Classes** perform each lock section of the source in place, with the source's fields, branches
  and loops, and are proved equal to specification functions: `StreamingEngine`, `EngineRegistry`,
  `RenderPipeline`, `ReloadGate`, `RenderTable`, `UpdateHub`, `StreamRelay`, `SegmentWriter`,
  `PlaceholderDrawing`, `SegmentToggles`, `ConfigReload`.
- **Protocols** interleave those sections. Each is a state machine whose `Step` has one constructor
  for every section or action outside a lock; `Reachable` is any state of any run, and the theorems
  hold in all of them: `EngineProtocol`, `GenerationProtocol`, `GateProtocol`, `HandleProtocol`
  (which refines `GateProtocol`), `HubProtocol`, `SharedProviders`, `ConfigReload`, and the runs at the
  end of `SegmentToggles`.

`Wrappers` holds the `Option` type.

## Assumptions

- StartRender calls of one session do not overlap; the source leaves this to its clients.
- Sessions carry primary and repaint requests, with an engine and a config.
- Only safety is claimed. A blocking loop is a step that is not enabled until its condition holds.
- Counters are unbounded: the wrap-around of 64-bit sequence numbers, render IDs and of the
  conversion to `int` in the history lookup is not modelled.
- Sessions, engines, contexts, hubs and handles are named by numbers; the context and the cancel
  function of a generation carry the same one. A map that only ever holds `true` is a set.
- The history limit is any positive number. Timers and deadlines may fire at any time.

## Where the code and its comments differ

Each is a lemma; where a state is in question, a run is given that reaches it.

- A hard cancel does not always come before the next generation. `cancelActive` gives up the lock
  before it calls the cancel function, so a thread that completes the old handle can hold it while
  StartRender installs the next generation on the same engine (`GenerationProtocol.TwoGenerationsOnOneEngine`).
  And a session can be removed over a live generation, under a StartRender that holds its engine, so
  that nobody can cancel it any more (`GenerationProtocol.LostGenerationStaysBesideItsSuccessor`).
  These are all the ways (`GenerationProtocol.InstallSupersedesAllIff`).
- A superseded generation is then not inert, and its results take down the placeholders of the next
  prompt (`EngineProtocol.UncancelledPredecessorErasesAPlaceholder`). What is inert, and whose
  placeholders are conserved, is said exactly by `EngineProtocol.SupersededIsInertIff` and
  `EngineProtocol.PlaceholdersAreConservedIff`.
- A generation can have the render ID zero, when its session is removed between GetOrCreateEngine
  and SetActiveRender; its handle then cancels whichever generation is live
  (`GenerationProtocol.UnregisteredHandleCancelsItsSuccessor`).
- A reattached handle can read a hub its generation does not publish to
  (`GenerationProtocol.ReattachedHandleOnAnotherHub`).
- When a repaint returns, no segment need be pending: the publisher may have taken the last one down
  and not yet announced it. The stream is still served
  (`EngineProtocol.RepaintStreamMayOutliveItsPlaceholders`, `EngineProtocol.RepaintStreamIsServed`).
- A generation that could not be registered publishes with the ID zero, and readers of other
  generations receive that (`HubProtocol.UnregisteredPublicationLeaks`).
- A Reset does not bring the gate's count to zero by itself while a StartRender of another session is
  between the gate and the table (`HandleProtocol.HandleStoredAfterReset`).
- A worker of an old generation can put its provider into the table after the next one reset it, and
  a clone can then be filled from a source an abandoned goroutine still executes
  (`SharedProviders.StaleProviderExposesRunningSource`).
- A worker whose shared provider timed out delivers its clone, although the comment on
  `streamingResult` says a timeout delivers none (`SharedProviders.TimedOutProviderDeliversBlank`, `SharedProviders.BlankIsDeliveredIff`).
- A toggle list applied twice restores what is shown, but not the stored map when a listed name was
  stored as false; and a toggle cleared before its first sync comes back
  (`SegmentToggles.TwiceIsIdentityIff`, `SegmentToggles.ClearedBeforeSyncComesBack`).
- The catch-up by modification time misses a save that falls between the reset of the engines and
  the capture of the time, until the watcher reports it (`ConfigReload.SaveDuringReloadIsMissed`).

## Model

| member | source | states |
|---|---|---|
| StreamingEngine.Engine.PrepareStreamingSegments | src/prompt/streaming.go:144-157 | a new generation starts with nothing pending, marked or repainted and its own blocks; and of its segments, by their keys, one with a fresh cache entry is restored to its text and completed, one with a stale entry is to be executed and keeps that text for its placeholder, and one with none is to be executed with no text; nothing else is executed, completed or given a text |
| StreamingEngine.Engine.MergeStreamingResultLocked | src/prompt/streaming.go:64-96 | a result with a clone, in a live context, makes its canonical segment the computation of its generation, unless it is a vim segment repainted since; otherwise, and everywhere else, nothing changes |
| StreamingEngine.MergeLands | src/prompt/streaming.go:77-95 | the same in every state, with every other field and entry kept |
| StreamingEngine.Engine.LatchPending | src/prompt/streaming.go:172-182 | the latch makes exactly the executed, uncompleted keys pending, and reports whether any key is |
| StreamingEngine.Engine.SettleResult | src/prompt/streaming.go:240-255 | the publisher merges one result and takes down its placeholder and marker, or does nothing at all when cancelled |
| StreamingEngine.Engine.MarkPendingSegmentsTimedOut | src/prompt/streaming.go:283-296 | all pending keys and no others are marked, and nothing when cancelled or nothing is pending |
| StreamingEngine.Engine.PrimaryRepaint | src/prompt/streaming.go:513-582 | a repaint resolves blocks if there are none, executes the vim segments under its mode and latches that it did exactly if there is one, refreshes the cached text of pending segments and restores the others that have a cache entry |
| StreamingEngine.RepaintTouches | src/prompt/streaming.go:541-577 | after a repaint every vim segment holds its mode, no pending segment and nothing outside the blocks is changed, and nothing counts as computed that was not |
| StreamingEngine.RepaintDecides | src/prompt/streaming.go:541-577 | in every state a repaint runs vim under its mode, restores each cached segment that is not pending to its cached text, gives a pending one that text for its placeholder, and keeps every other segment, text, placeholder and marker as it was |
| StreamingEngine.PrepareTouches | src/prompt/streaming.go:298-341 | a generation starts with none of its segments computed, and leaves the computations of others alone |
| StreamingEngine.PreparingDecides | src/prompt/streaming.go:318-343 | a fresh entry serves a segment, a stale one leaves it a text, and only segments without a fresh entry are executed |
| EngineProtocol.RunKeepsInv | src/prompt/streaming.go:129-296 | every step of every goroutine, of live and cancelled generations alike, keeps the whole invariant, over runs of any length |
| EngineProtocol.PlaceholdersAreConserved | src/prompt/streaming.go:172-182 | after the cutoff latch of the live latest generation every pending key's result is with a worker, in the channel, or received and not merged; and those are all of them if it began when no live generation still had one of its keys to deliver |
| EngineProtocol.PlaceholdersAreConservedIff | src/prompt/streaming.go:144-182 | a generation's pending keys are its outstanding ones in every continuation until the next begins exactly when, as it begins, no live generation of the engine has a result outstanding for a key it executes too |
| EngineProtocol.MarkersArePending | src/prompt/streaming.go:283-296 | timed-out keys are pending in every reachable state |
| EngineProtocol.CompletionLeavesNoPlaceholder | src/prompt/streaming.go:231-238 | when the latest publisher is about to announce completion nothing is pending or marked, wherever the cutoff fell and whoever interfered |
| EngineProtocol.PublisherAnnouncesCompletion | src/prompt/streaming.go:204-238 | once a publisher is done its completion is in the log, unless it was cancelled, none of its results is outstanding, and if it is the latest nothing is pending or marked |
| EngineProtocol.CompletionIsTheEnd | src/prompt/streaming.go:228-238 | a completion in the log means the end, in every reachable state: nothing is pending or marked in the latest generation, and a live one that began clear has no result outstanding |
| EngineProtocol.ResultsAreAnnouncedOnce | src/prompt/streaming.go:240-255 | the log has the name of each result the publisher settled exactly once, or the publisher is about to add it, and of no other result |
| EngineProtocol.MarkingIsAnnounced | src/prompt/streaming.go:256-268 | a generation marks its pending segments at most once and announces each marking once; from then on exactly the pending ones are marked |
| EngineProtocol.TimerFiresOnce | src/prompt/streaming.go:160-168 | over every run, a generation that set a timer can be told of it whenever its publisher waits, until it was; and no other generation is |
| EngineProtocol.ResultsReachTheirSegments | src/prompt/streaming.go:64-96 | in every reachable state what a live generation merged with a clone is on its canonical segment, unless a repaint restored it since, or executed it under vim |
| EngineProtocol.ResultIsDeliveredAsSent | src/prompt/streaming.go:228-255 | no step loses a result or its clone on the way from the worker to the merge, or makes one up, but that a received result of a cancelled generation is dropped |
| EngineProtocol.StreamsIff | src/prompt/streaming.go:172-190 | a live prompt is streamed exactly when a result is outstanding at its cutoff, and those are its placeholders |
| EngineProtocol.PlaceholdersChangeOnlyBy | src/prompt/streaming.go:144-296 | a placeholder appears only at a cutoff and goes only with its own result or with a new generation; markers come only from a live timer |
| EngineProtocol.SupersededIsInertIff | src/prompt/streaming.go:240-253 | no merge, latch, publisher or timer step of a superseded generation changes the engine in any continuation exactly when it is cancelled, or its publisher is done or has nothing left to receive and no timer |
| EngineProtocol.SectionsAreInertIffCancelled | src/prompt/streaming.go:245-253 | the cancelled context is exactly what makes a publisher's and a timer's lock section harmless to every engine state, and a merge's with the missing clone |
| EngineProtocol.LatchIsInertIff | src/prompt/streaming.go:172-179 | the latch, which reads no context, is harmless exactly when everything executed is completed |
| EngineProtocol.UncancelledPredecessorErasesAPlaceholder | src/prompt/streaming.go:240-253 | a run in which a live predecessor takes down the placeholder of a segment the new generation is still computing |
| EngineProtocol.RepaintStreamIsServed | src/daemon/render_pipeline.go:226-242 | for as long as a repaint's stream is read its generation is cancelled, or its completion is in the log at or above its base, or its publisher is not finished |
| EngineProtocol.RepaintReturnsServed | src/daemon/render_pipeline.go:231-241 | when a repaint decides what to return, a segment is pending and its publisher at work, or the completion is above its base, or the generation is cancelled |
| EngineProtocol.StreamHasPendingIff | src/prompt/streaming.go:217-253 | from then on a segment is pending exactly as long as a result is outstanding, in the latest generation if it began clear |
| EngineProtocol.RepaintStreamMayOutliveItsPlaceholders | src/prompt/streaming.go:250-255 | a run in which the stream of a live generation exists, nothing is pending and nothing has been published since its base |
| EngineProtocol.VimShowsLatestRepaint | src/prompt/streaming.go:77-86 | once a repaint ran in a generation every canonical vim segment of its blocks holds the latest repaint's mode, whatever results arrive |
| EngineRegistry.CancelLeavesCurrentIff | src/daemon/registry.go:195-211 | a cancel with an ID leaves the live generation alone exactly when the ID is another one's and not zero, and never touches other sessions |
| EngineRegistry.EngineRegistry.GetOrCreateEngine | src/daemon/registry.go:43-68 | a session whose engine serves the config keeps its engine and its active render; another gets the created engine with no active render; and no other session changes |
| EngineRegistry.AcquiringServes | src/daemon/registry.go:43-68 | the same of the section alone, for every table |
| EngineRegistry.EngineRegistry.SetActiveRender | src/daemon/registry.go:151-165 | the generation becomes the active one under an ID above all before it, or the call fails with zero exactly when the session is gone |
| EngineRegistry.EngineRegistry.GetActiveRender | src/daemon/registry.go:167-177 | the active context with its ID, or none |
| EngineRegistry.EngineRegistry.CancelActive | src/daemon/registry.go:195-211 | context, cancel function and ID go together, and the cancel function handed out is that of the active generation |
| EngineRegistry.EngineRegistry.StartRender | src/daemon/registry.go:120-149 | a soft cancel reattaches exactly when the session's engine has a live generation and then changes nothing; otherwise a new generation is active under a fresh ID, and a hard cancel took its predecessor's cancel function |
| EngineRegistry.EngineRegistry.RemoveSession | src/daemon/registry.go:232-236 | the session is gone, and no other is touched |
| EngineRegistry.EngineRegistry.Reset | src/daemon/registry.go:238-242 | no session is left, and IDs go on from where they were |
| RenderPipeline.ActiveRender.Complete | src/daemon/render_pipeline.go:432-446 | the first call cancels the handle's generation and returns its slot; later ones, or one after Release, change nothing |
| RenderPipeline.ActiveRender.Release | src/daemon/render_pipeline.go:454-464 | the first call returns the slot and leaves the registry alone; later ones change nothing |
| RenderPipeline.PromptSessionStore.Hub | src/daemon/session_store.go:20-32 | a session keeps its hub until it is dropped, and two sessions never share one |
| RenderPipeline.PromptSessionStore.RemoveSession | src/daemon/session_store.go:34-44 | hub and engine of the session go, and no other's |
| RenderPipeline.PromptSessionStore.Reset | src/daemon/session_store.go:52-62 | all hubs and engines go |
| GenerationProtocol.RunKeepsInv | src/daemon/registry.go:99-242 | every step of starters, completers, removals and resets keeps the whole invariant, over runs of any length |
| GenerationProtocol.GenerationsAreDistinct | src/daemon/registry.go:151-165 | each generation is cancelled at most once, and render IDs strictly increase but for those that are zero |
| GenerationProtocol.ActiveRenderIsOne | src/daemon/registry.go:15-21 | context, cancel function and ID of a session are set or cleared together, and are those of one uncancelled generation of it |
| GenerationProtocol.EngineHasOneLive | src/daemon/registry.go:120-149 | of the generations of an engine at most one is neither cancelled, nor about to be, nor out of everyone's reach, and it is the active one of its session |
| GenerationProtocol.InstallSupersedesAllIff | src/daemon/registry.go:134-148 | when StartRender begins a generation, registered or not, all earlier ones of its engine are cancelled exactly if no thread is between taking one's cancel function and calling it, and none was left behind by a slot removed or replaced over it or by a failed registration |
| GenerationProtocol.LostStaysLive | src/daemon/registry.go:232-242 | what was left behind stays uncancelled in every continuation |
| GenerationProtocol.CompleteTakesItsOwn | src/daemon/registry.go:99-105 | a handle with a render ID cancels its own generation or none |
| GenerationProtocol.StarterHasOneWay | src/daemon/registry.go:120-149 | a soft StartRender reattaches exactly to a live generation, a hard one takes exactly that generation's cancel function, and without one either begins a generation |
| GenerationProtocol.SessionKeepsEngine | src/daemon/registry.go:43-68 | over every run a session keeps its engine, unless its slot is removed or reset, or acquired for another config |
| GenerationProtocol.StartRendersShareTheEngine | src/daemon/registry.go:43-68 | two StartRenders of a session with no such step between them get one engine, whatever else runs |
| GenerationProtocol.GenerationIsOnItsEngine | src/daemon/registry.go:134-148 | a StartRender keeps the engine it got, and its generation is on it |
| GenerationProtocol.ReattachedReadsPublishersHubIff | src/daemon/render_pipeline.go:132-147 | a reattached handle reads the hub its generation publishes to exactly when that hub has not left the store |
| GenerationProtocol.FreshHandleReadsPublishersHub | src/daemon/render_pipeline.go:132-147 | a handle that was not reattached reads the hub its generation publishes to |
| GenerationProtocol.TwoGenerationsOnOneEngine | src/daemon/registry.go:204-210 | a run that leaves two uncancelled generations on one engine |
| GenerationProtocol.LostGenerationStaysBesideItsSuccessor | src/daemon/registry.go:155-158 | a run that leaves two uncancelled generations on one engine with no cancel in flight |
| GenerationProtocol.UnregisteredHandleCancelsItsSuccessor | src/daemon/registry.go:155-158 | a run in which a handle without an ID takes the next generation's cancel function |
| GenerationProtocol.ReattachedHandleOnAnotherHub | src/daemon/session_store.go:34-44 | a run in which a live generation's reattached handle waits on another hub |
| ReloadGate.ReloadGate.TryStartRequest | src/daemon/reload_gate.go:20-26 | a request is admitted and counted exactly when no reload holds the gate |
| ReloadGate.ReloadGate.Release | src/daemon/reload_gate.go:28-35 | one slot is returned, and never below zero |
| ReloadGate.ReloadGate.TryBeginReload | src/daemon/reload_gate.go:38-43 | a reloader claims the gate exactly when no other has |
| ReloadGate.ReloadGate.TryDrain | src/daemon/reload_gate.go:44-47 | the wait ends exactly when no request is active |
| ReloadGate.ReloadGate.EndReload | src/daemon/reload_gate.go:50-55 | the gate is open again, with the count unchanged |
| ReloadGate.ReloadGate.Snapshot | src/daemon/reload_gate.go:57-61 | the count and the flag of one instant |
| GateProtocol.RunKeepsInv | src/daemon/reload_gate.go:20-55 | every step of any number of requests, retirers and reloaders keeps the gate's invariant |
| GateProtocol.GateIsConserved | src/daemon/reload_gate.go:28-35 | the active count is the number of handles neither completed nor released, in any order and repetition, so the guard in the release function is never false |
| GateProtocol.HandleRetiresOnce | src/daemon/render_pipeline.go:432-464 | a retired handle returned its slot once, and cancelled its generation once if Complete came first and never if Release did |
| GateProtocol.FirstCallDecides | src/daemon/render_pipeline.go:432-464 | over every run the first call to a handle decides: without one it stays as it is, and retired it has returned its slot once, and cancelled its generation exactly if that call was Complete |
| GateProtocol.ReleasedHandleNeverCancels | src/daemon/render_pipeline.go:448-464 | in every continuation a handle Release got hold of first never cancels its generation |
| GateProtocol.ReloadersExclude | src/daemon/reload_gate.go:38-48 | at most one thread is between setting `reloading` and EndReload |
| GateProtocol.GateAdmitsIff | src/daemon/reload_gate.go:20-43 | a request gets a slot, and a reloader the gate, exactly when no reloader is between its claim and EndReload |
| GateProtocol.ReloadAdmitsNone | src/daemon/reload_gate.go:20-48 | over every run, while a reload waits or runs the count never grows and no handle is made |
| GateProtocol.ReloadRunsAlone | src/daemon/reload_gate.go:38-55 | from BeginReload's return until EndReload the count is zero, every handle is retired and no request is admitted, over every run |
| GateProtocol.ReloadDrainsIff | src/daemon/reload_gate.go:44-46 | a reload that claimed the gate gets through exactly when every handle is retired |
| RenderTable.RenderTable.Claim | src/daemon/daemon.go:148-159 | a finished handle or a hard cancel takes the session's handle out to be completed, a soft cancel leaves it and remembers it, and no other session is touched |
| RenderTable.RenderTable.Store | src/daemon/daemon.go:182-188 | the session has the new handle, or none |
| RenderTable.RenderTable.Remove | src/daemon/daemon.go:423-426 | the session's handle is taken out, whatever it is |
| RenderTable.RenderTable.RemoveIfCurrent | src/daemon/daemon.go:433-449 | the handle is taken out exactly if it is still the session's |
| RenderTable.RenderTable.RemoveAll | src/daemon/daemon.go:276-282 | the table is emptied, and every handle in it is handed to be completed, as many as there were entries |
| RenderTable.IsCompletedRender | src/daemon/daemon.go:451-471 | a handle is completed exactly if the last publication of its hub is a completion, of its own generation or of one without an ID |
| HandleProtocol.RunsRefineGate | src/daemon/daemon.go:136-195 | every run of the daemon's threads is a run of the gate's protocol at the gate, so its theorems hold here |
| HandleProtocol.RunKeepsInv | src/daemon/daemon.go:136-293 | every step keeps each handle in one place, over runs of any length |
| HandleProtocol.HandlesAreAccounted | src/daemon/daemon.go:148-188 | in every reachable state a handle that holds a slot is in exactly one of the table, the hands of a thread that took it out, and a StartRender, and no two sessions list the same one |
| HandleProtocol.SessionIsAccounted | src/daemon/daemon.go:148-188 | between the StartRender calls of a session, whatever others do, its handles that hold a slot are the one in the table, which does, and those with a thread that took them out |
| HandleProtocol.GateCountsEveryPlace | src/daemon/reload_gate.go:20-36 | the gate's count is the number of live handles in the table, with threads that took them out, and with StartRender calls |
| HandleProtocol.GateCountsTheTable | src/daemon/daemon.go:182-188 | when no call or thread holds a handle the gate's count is the size of the table, and the handles that hold a slot are its values |
| HandleProtocol.ResetDrainsTheGate | src/daemon/daemon.go:271-293 | with no StartRender under way or begun, once what was taken out is completed nothing holds a slot and the count is zero |
| HandleProtocol.ResetDrainsTheGateIff | src/daemon/daemon.go:271-293 | over any run after a Reset that has completed what it took, the count is zero exactly when the handles it did not find in the table, and those admitted since, are retired |
| HandleProtocol.HandleStoredAfterReset | src/daemon/daemon_reload.go:102-108 | a run in which a StartRender under way stores its handle after the Reset, and the count stays at one |
| HandleProtocol.SoftCancelKeepsSlot | src/daemon/daemon.go:144-188 | a soft cancel keeps the count positive, from the old handle until it is retired and from the new one's admission until it is stored, and no reload gets through |
| HandleProtocol.ClaimDecides | src/daemon/daemon.go:148-159 | a soft cancel leaves the handle in the table and retires nothing; any other takes it out and completes it before it goes on |
| HandleProtocol.StartRenderTakesASlot | src/daemon/daemon.go:160-176 | a StartRender goes on once the handle it took out is retired, and gets a new handle with its own slot exactly when no reload holds the gate |
| HandleProtocol.StreamingHandleIsStored | src/daemon/daemon.go:165-188 | what a StartRender that streams keeps is in the table afterwards, unretired; what one that does not stream has is retired first; and the superseded one is retired before either |
| HandleProtocol.SupersededNeverCancels | src/daemon/daemon.go:165-169 | a superseded handle whose Release got in first never cancels the shared generation, in every continuation |
| HandleProtocol.ReloadExcludesRenders | src/daemon/render_pipeline.go:269-278 | while a reload runs no StartRender holds a handle it will return or gets one, and the table holds none that is live |
| UpdateHub.ExtendedRetains | src/daemon/update_hub.go:46-57 | a publication, with its trim, keeps the buffer the end of the full log; it is the whole log up to twice the limit, and then as long as it was `limit` + 1 publications before |
| UpdateHub.NextAfterIsFirstNewer | src/daemon/update_hub.go:120-131 | the arithmetic lookup is the linear search for the first retained update newer than `after`, and gives the log's successor or the oldest one kept |
| UpdateHub.NextIsSuccessorIff | src/daemon/update_hub.go:120-131 | a subscriber gets the very next publication exactly when it is not behind the window, and never falls behind within the limit |
| UpdateHub.SplitParts | src/daemon/update_hub.go:60-70 | the split loses no waiter and leaves no channel on both sides, nor twice on one |
| UpdateHub.SplitWaiters | src/daemon/update_hub.go:60-69 | the loop computes the two sides of the split, in order |
| UpdateHub.Notify | src/daemon/update_hub.go:73-76 | every ready channel gets the snapshot and is closed, and every send finds it open and empty |
| UpdateHub.SessionUpdateHub.PublishLocked | src/daemon/update_hub.go:45-71 | the log grows by the next number, the hub stays valid, and the waiters that have seen less are handed over |
| UpdateHub.SessionUpdateHub.Publish | src/daemon/update_hub.go:39-79 | each waiter that had seen less gets the snapshot once, and only those, and the hub stays valid |
| UpdateHub.SessionUpdateHub.Subscribe | src/daemon/update_hub.go:102-118 | a subscriber that is behind gets its successor, or the oldest update kept, in a closed channel; another is queued with an open, empty one |
| UpdateHub.SessionUpdateHub.NextAfterLocked | src/daemon/update_hub.go:125-131 | the result is the first retained update newer than `after` |
| UpdateHub.SessionUpdateHub.Last | src/daemon/update_hub.go:91-100 | the last publication of the log, or none |
| UpdateHub.SessionUpdateHub.Sequence | src/daemon/update_hub.go:84-89 | the number of publications |
| StreamRelay.FirstAcceptedIsFirst | src/daemon/stream_relay.go:36-39 | the filter's first hit is let through, and nothing before it is |
| StreamRelay.StreamRelay.Next | src/daemon/stream_relay.go:15-44 | Next returns the first publication after its position, or from the start of the window, that the filter lets through, and otherwise leaves one subscription behind |
| HubProtocol.RunKeepsInv | src/daemon/update_hub.go:39-131 | every step of concurrent publishers and readers keeps the hub's, the channels' and the readers' invariants |
| HubProtocol.HistoryIsSuffix | src/daemon/update_hub.go:45-57 | what is retained is the contiguous end of everything published, of the length the number of publications determines: all of it up to twice the limit, and then between the limit and that, in turns |
| HubProtocol.SendsNeverBlock | src/daemon/update_hub.go:73-76 | with concurrent publishers and abandoned subscribers no send blocks or hits a closed channel, and none is closed twice |
| HubProtocol.ChannelGetsSuccessor | src/daemon/update_hub.go:58-71 | each channel gets at most one snapshot, numbered one above what its subscriber had seen unless that was behind the window, and queued waiters have seen everything |
| HubProtocol.NoWakeupIsLost | src/daemon/update_hub.go:102-118 | with no publisher still notifying, a reader's channel is empty exactly when there is nothing it has not seen; it is never closed and empty |
| HubProtocol.StreamIsOwnAndInOrder | src/daemon/stream_relay.go:32-39 | a reader only receives what its filter lets through, above its base, in order and once each, however far it fell behind |
| HubProtocol.StreamIsComplete | src/daemon/stream_relay.go:20-39 | a reader that was never behind the window has received exactly what the filter lets through between its base and its position |
| HubProtocol.ReaderStartsAtItsHandle | src/daemon/render_pipeline.go:132-147 | over every run a handle's reader receives nothing published before the handle was made and, never behind the window, all the filter lets through since |
| HubProtocol.UnregisteredReaderReceivesAll | src/daemon/stream_relay.go:36-39 | a reader without a render ID that was never behind the window has received everything between its base and its position |
| HubProtocol.OnlyPublishersPublish | src/daemon/update_hub.go:39-57 | every step but a publication keeps the log, and that adds its payload and ID under the next number |
| HubProtocol.LappedIff | src/daemon/update_hub.go:120-131 | a subscription laps its reader exactly when it is behind the window, and never within the limit |
| HubProtocol.StreamIsTheGenerationIff | src/daemon/render_pipeline.go:121-157 | a reader that was never behind the window, of a fresh or a reattached handle, has received exactly what its generation published between its base and its position if and only if nothing without a render ID was published there |
| HubProtocol.UnregisteredPublicationLeaks | src/daemon/stream_relay.go:36-39 | a run in which a reader receives a publication of a generation that is not its own |
| SharedProviders.RunKeepsInv | src/prompt/streaming.go:343-482 | every step of workers, providers and execution goroutines keeps the ownership invariant |
| SharedProviders.MergedCloneIsAtRest | src/prompt/streaming.go:383-437 | in the latest generation no goroutine works on a merged clone, nor on the source its own provider filled it from, across finish, timeout and cancellation |
| SharedProviders.MergedCloneIsAtRestIff | src/prompt/streaming.go:383-482 | no goroutine works on a merged clone, and none on the source it was filled from exactly when no other provider of that source's generation and type has an execution that is not over |
| SharedProviders.HandedSafeProviderIff | src/prompt/shared_provider.go:75-103 | until the next generation begins a worker's clone is only merged with its source at rest exactly when, as it is handed its provider, it is cancelled, or the provider has failed, or every other one of its generation and type has run to the end |
| SharedProviders.OwnProviderIsSafe | src/prompt/shared_provider.go:75-103 | a worker of the latest generation that is not handed an older provider is safe |
| SharedProviders.ResetTableIsOwn | src/prompt/shared_provider.go:69-103 | over every run after a generation reset the table, as long as no older worker asks for a provider, its workers are handed its own, and are safe |
| SharedProviders.WorkersOfATypeShare | src/prompt/shared_provider.go:75-103 | workers of one segment type are handed one provider until the next generation begins, over every run |
| SharedProviders.SourcesAreExecutedOnce | src/prompt/shared_provider.go:75-103 | a provider executes once however many workers it serves; only providers execute sources, and the latest generation's source of a type is executed at most once |
| SharedProviders.ExecutionsEndWithTheirGeneration | src/prompt/shared_provider.go:91-100 | an execution is aborted only, and always can be, by the cancel of the generation whose clone or source it works on |
| SharedProviders.WorkersReport | src/prompt/streaming.go:421-436 | a worker of a live generation never quits: one whose execution timed out still reports, and then without its clone |
| SharedProviders.CancelledWorkersStop | src/prompt/streaming.go:383-426 | over every run, a worker of a cancelled generation that has not started never does, and one that has not sent never sends |
| SharedProviders.BlankIsDeliveredIff | src/prompt/streaming.go:401-436 | a delivered clone has nothing computed in it exactly when its shared provider timed out or was cancelled |
| SharedProviders.TimedOutProviderDeliversBlank | src/prompt/streaming.go:401-414 | a run in which a live generation merges the blank clone of a worker whose provider timed out |
| SharedProviders.StaleProviderExposesRunningSource | src/prompt/shared_provider.go:69-73 | a run in which a live generation merges a clone filled from a source that is still being executed |
| SegmentWriter.WriteSegments | src/prompt/segments.go:117-162 | for every order of arrival the writes are the same, in index order, and the main loop does exactly those before the first segment with an unresolvable need |
| SegmentWriter.InOrderWritesEach | src/prompt/segments.go:134-148 | each segment is written once, in its place, with the count of those rendered before it, and with all its needs if it is written in the main loop |
| SegmentWriter.DrawnBeforeCounts | src/prompt/segments.go:134-148 | a segment's index is the number of earlier segments that rendered something |
| SegmentWriter.FirstUnresolvedIsFirst | src/prompt/segments.go:151-161 | the first segment left over needs a name no segment of the block has, and none before it does |
| SegmentWriter.NothingLeftOverIff | src/prompt/segments.go:151-161 | nothing is left over exactly when every need is the name of some segment |
| SegmentWriter.CanRenderSegment | src/prompt/segments.go:239-248 | a segment can be rendered exactly when all its needs are executed |
| SegmentWriter.WriteReady | src/prompt/segments.go:135-148 | the inner loop writes the next segments in order and stops at the first that has not arrived or cannot be rendered |
| SegmentWriter.WriteRest | src/prompt/segments.go:151-161 | the last loop writes what is left, in order |
| PlaceholderDrawing.Painter.WriteBlockSegmentsStreaming | src/prompt/streaming.go:696-744 | every pending or already rendered segment has the text, colors, templates and enabled flag it had before; the block is drawn, and the others are left, as the pass over their items says |
| PlaceholderDrawing.Painter.WriteOne | src/prompt/streaming.go:701-732 | one segment is drawn as a placeholder, from its text, kept or rendered, and is to be restored exactly in the first two cases |
| PlaceholderDrawing.Painter.WritePlaceholderSegment | src/prompt/streaming.go:811-835 | the placeholder has the pending or the timeout text, with the segment's, the configuration's or the built-in markers, and no templates |
| PlaceholderDrawing.Painter.WriteSegment | src/prompt/segments.go:195-225 | a segment that is neither enabled nor kept is not drawn; another takes the next colors of the cycle, which turns |
| PlaceholderDrawing.Painter.RestoreAll | src/prompt/streaming.go:737-739 | every saved segment has its saved style again |
| PlaceholderDrawing.PassKeepsSaved | src/prompt/streaming.go:737-739 | after the block is written every pending or already rendered segment has the text, colors, templates and enabled flag it had before |
| PlaceholderDrawing.PassDraws | src/prompt/streaming.go:701-716 | each of them is drawn in its turn, with the placeholder of its own style or with that style without templates |
| PlaceholderDrawing.PlaceholderShows | src/config/segment.go:537-600 | a timed-out segment shows the timeout marker and a pending one the pending marker, before the value they last had or dots; the segment's own marker wins over the configuration's, and that over the built-in one |
| PlaceholderDrawing.PendingOrRenderedIsDrawnAndKept | src/prompt/streaming.go:701-716 | a pending segment is drawn as its placeholder whatever it rendered before, a rendered one from its text in its resolved colors, without templates; both are left as they were |
| PlaceholderDrawing.OthersAreRenderedOrKept | src/prompt/streaming.go:718-732 | any other segment is rendered, unless a repaint skips it, and drawn with the text and colors that gave; one that comes out empty, or was not asked, is drawn only if it is to be kept |
| PlaceholderDrawing.WritingTakesTheNextColors | src/prompt/segments.go:195-225 | what is written takes foreground and background at the head of the cycle, keeps the rest, and the head goes to the end |
| PlaceholderDrawing.RerendersDrawTheSame | src/prompt/streaming.go:584-589 | over any number of re-renders a segment that stays pending or rendered keeps its item, and so its placeholder |
| PlaceholderDrawing.BlockRedrawsIdentically | src/prompt/streaming.go:584-589 | a block whose segments are all pending or rendered is drawn identically again |
| SegmentToggles.FlipsOddNames | src/daemon/daemon.go:518-525 | exactly the names that occur an odd number of times are flipped, and unlisted ones keep their entry |
| SegmentToggles.TwiceIsIdentityIff | src/daemon/daemon.go:518-525 | a list applied twice shows the same segments, and restores the map exactly when no listed name was stored as false |
| SegmentToggles.SegmentToggles.SessionToggles | src/daemon/daemon.go:476-498 | the first seed of a session wins, and what is stored is returned |
| SegmentToggles.SegmentToggles.ToggleSegment | src/daemon/daemon.go:502-526 | the session is seeded if it is new, and then each name is flipped exactly if it is listed an odd number of times |
| SegmentToggles.SegmentToggles.ResetToggles | src/daemon/daemon.go:530-539 | no session and no record of a sync is left |
| SegmentToggles.SegmentToggles.SyncConfigToggles | src/daemon/daemon.go:568-597 | what the config turned on and no sync has recorded is turned on in every live session and recorded; every session, and every other entry of each, is kept |
| SegmentToggles.SegmentToggles.DropSession | src/daemon/daemon.go:412-421 | the session's toggles go, and no other's, and what was recorded stays |
| SegmentToggles.SyncOnlyAdds | src/daemon/daemon.go:568-597 | the same for every state, name by name |
| SegmentToggles.EachNameIsPushedOnce | src/daemon/daemon.go:578-596 | over every run each name is pushed at most once between two resets |
| SegmentToggles.ClearedAfterSyncStaysOff | src/daemon/daemon.go:558-567 | a name cleared after its sync is not turned on by any later sync, seed or reload, unless it is toggled again or reset |
| SegmentToggles.OnStaysOn | src/daemon/daemon.go:476-597 | over every run of syncs and seeds a name a session has on stays on, until the session toggles it or goes |
| SegmentToggles.SessionsKeepApart | src/daemon/daemon.go:476-539 | seeding, toggling or dropping a session leaves the toggles of others alone |
| SegmentToggles.SyncTurnsOnIff | src/daemon/daemon.go:578-596 | a sync turns a name on exactly when the config has it on and nothing has recorded it |
| SegmentToggles.ClearedBeforeSyncComesBack | src/daemon/daemon.go:558-567 | a run in which the next sync turns on a name the user cleared |
| ConfigReload.RunKeepsInv | src/daemon/daemon_reload.go:48-160 | every step of watcher, worker and requests keeps the invariant |
| ConfigReload.NoRequestIsLost | src/daemon/daemon_reload.go:142-160 | while the daemon runs a notified save has been applied, or the slot is full, or a thread is still to drop the engines; when all is quiet it has been applied |
| ConfigReload.SignalStaysUntilTaken | src/daemon/daemon_reload.go:48-95 | over every run a queued signal stays until a thread takes it, which then goes for the lock |
| ConfigReload.NothingIsAppliedOnceStopped | src/daemon/daemon.go:271-274 | over every run from a stopped daemon nothing more is applied or queued |
| ConfigReload.AppliersExclude | src/daemon/daemon_reload.go:97-123 | reloads are applied one at a time |
| ConfigReload.SaveIsOverlookedIff | src/daemon/daemon_reload.go:66-81 | with no reload at work, some save is unapplied and invisible to the catch-up exactly when one fell between the last reset of the engines and the capture of the time, and none came since the capture |
| ConfigReload.MissedIsSavedSinceReset | src/daemon/daemon_reload.go:105-131 | what a capture records as missed is a save later than the engines that were dropped |
| ConfigReload.SaveDuringReloadIsMissed | src/daemon/daemon_reload.go:105-122 | a run after which an unapplied save is overlooked |
| ConfigReload.ReloadQueue.RequestConfigReload | src/daemon/daemon_reload.go:145-160 | the slot is filled only for the daemon's own file while it runs, and bursts coalesce |
| ConfigReload.ReloadQueue.ProcessPendingConfigReload | src/daemon/daemon_reload.go:48-61 | the slot is drained, with one reload if it was full and none otherwise |

## Left out

- One-shot prompts (tooltip, debug, valid, error, preview), which are synchronous and touch no pending state.
- Overlapping StartRender calls of one session, liveness and deadlock freedom.
- gRPC, sockets, lock files, file events, process tracking, idle tokens, stopping the daemon: their effects are arbitrary steps, or none.
- Segment writers, templates and the device cache are opaque: a worker yields one result, or none when cancelled; rendering has a given outcome; what the cache has for a segment, and whether it is fresh, is an input.
- StreamingEngine.Engine.PrepareStreamingSegments: the cache keys it records are left out, and the primary and transient block sets are one sequence.
- StreamingEngine.Engine.PrimaryRepaint: the same; blocks are resolved when that one sequence is empty.
- Glyphs, separators, layout, right prompts and terminal output.
- `ActiveRender.Next` after the relay returned: its looks at the contexts and the bundle it draws. A reader that walks away is a step of `HubProtocol`.
- Relay or daemon values that are nil, and render requests without an engine or a config.
- EngineRegistry.EngineRegistry.GetOrCreateEngine: whether the cached engine serves the requested config is an input.
- UpdateHub.SessionUpdateHub.Publish: its sends are taken without other threads; `HubProtocol` interleaves them.
- ReloadGate.ReloadGate.TryStartRequest: one turn of the wait loop; waiting and broadcasts are left to `GateProtocol`, where a waiting thread's step is not enabled.
- SegmentWriter.WriteSegments: the order of arrival comes with its inverse, which says that every worker reports once.
- SharedProviders.HandedSafeProviderIff: says nothing of a clone merged after the next generation has begun over a live one; `MergedCloneIsAtRestIff` does.
- StreamRelay.StreamRelay.Next: taken without publishers in between, and its context ends only when nothing is left; `HubProtocol` interleaves it.
- EngineRegistry.EngineRegistry.StartRender: taken with no other thread between its lock sections; `GenerationProtocol` interleaves them.
- PlaceholderDrawing.Painter.WriteBlockSegmentsStreaming: segments are distinct objects; newly rendered and kept segments keep the colors the cycle gave them, as in the source, and nothing is claimed of those.
