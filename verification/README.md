# Moonshine: verified models of the streaming host's state machines

Moonshine is a game-streaming host: a Wayland compositor renders an application, hands the
frames to an encoder, and a session manager, a pairing protocol and a Vulkan layer sit around
it. This project models the parts of it that are protocols or state machines and proves what
they keep over every run.

| module | what it models |
|---|---|
| `FrameRelay` | both parties of the frame relay: pool slots, buffer ages, bounded channel, encoder, lent client buffers |
| `CompositorRelay` | the compositor's half as an object updated in place, tied to `FrameRelay` |
| `SessionManager` | critical sections of the manager's lock, tasks that check a session out, watchdogs, generations |
| `WindowFocus` | transient-children index, and the two bounded walks over possibly cyclic transient-for links |
| `ProcessWalk` | the process-tree walk for a Steam app id, with and without its cache |
| `PopupGrabs` | the stack of grabbing popups, branch dismissal, and the serials that authorise a grab |
| `Pairing` | the pairing exchange of many clients, block-wise ECB, the persisted sets |
| `PenInput` | pen events turned into tablet-tool calls, judged by an automaton over the call trace |
| `ColorState` | per-surface colour declarations against their request log |
| `VulkanEnumeration` | the enumeration wrappers of the Vulkan layer under the two-call contract |

Each imperative component has a pure step function and a class. The class methods change the
source's fields in place and are proved equal to the step function; the step function is what
the run properties are proved about. `dafny verify dfyconfig.toml` verifies everything.

## What turned out false of the code

The model follows the code. Where a promised property does not hold, a lemma shows the failure
and the exact condition is proved.

- When waiting for the render fence fails, the failure is logged and the frame sent all the same,
  so the encoder can see a picture that is not finished (`UnfinishedFrameIsReachable`). An
  accepted render is faithful for every scene if and only if its wait succeeded
  (`FaithfulIffWaitSucceeded`). In every run, every frame shows its scene once the GPU has done
  its work (`EveryFrameWillShowItsScene`).
- A failed collection of render elements and a failed render return with the slot still in use. Such
  a slot is never freed, and at most two more pool renders start afterwards (`LeakWedgesPool`);
  one failed render is enough to reach a state in which nothing is outstanding and yet no render ever
  starts again (`OneFailureWedgesPool`).
- A client buffer lent twice loses its "stable" index as soon as its first frame is consumed
  (`NameSurvivesIffNoFrameConsumed`), so two frames of one buffer can be outstanding under
  different indices (`OneBufferUnderTwoIndices`). Indices still never name two buffers.
- `stop_session` does nothing when the slot is empty. A launch abandoned by the HTTP timeout
  leaves the slot empty and the key sender installed, and so does a start that finds a context
  missing. A retry, however often it was refused before, is accepted if and only if the watchdog
  has reset the manager in between (`RetryAfterLostSession`).
- A watchdog reset between a task taking the session out and putting it back allows two
  sessions (`ResetDuringCheckoutAllowsTwoSessions`, reached in `TwoSessionsAreReachable`).
  Without such a reset there is only one (`SingleSessionInQuietRuns`).
- Contexts do not always rest beside a Launched session: a start that returns late puts its
  left-over Active session beside the contexts of the next one (`StaleStartStrandsContexts`). A
  step breaks the rule if and only if it is such a return (`ContextsFitIffNotStranded`). In all
  runs contexts are a pair and never rest beside an empty slot or an Initialized session
  (`EveryInterleavingIsGuarded`).
- A left-over session can be started under the shutdown manager of a later generation, which no
  watchdog watches (`StaleLaunchStartsUnwatched`). Streams get the generation of their session
  if and only if it is current when taken out (`StreamsGetOwnGenerationIffCurrent`).
- A launch or start that fails after its manager was reset wipes the session of the next
  generation (`FailedLaunchWipesNextSession`). A failed return hits its own generation if and
  only if its session is not left over (`FailedReturnHitsOwnGenerationIffCurrent`).
- A watchdog never wipes a later session provided an abort takes effect before the task takes
  the lock; `LateResetWouldWipeNextSession` shows the run that would go wrong otherwise.
- Dismissing an unmapped popup leaves the grab alone when a popup above it in the chain is also
  unmapped (`UnmappedMenuIsNotCut`). `DismissCutsBranch` and `DismissSparesGrab` state exactly
  when the chain is cut.
- `refresh_popups` dismisses parents before children. It leaves exactly the part of the grab
  below the lowest unmapped popup if and only if at most one grabbing popup is unmapped
  (`RefreshKeepsMappedPartIffOneUnmapped`). When a menu and its submenu are unmapped together,
  the menu stays in the grab although it has left the popup tree (`UnmappedMenuKeepsGrab`), and
  no later grab, unmap or refresh changes that until the focus moves or the window goes
  (`TornGrabIsStuck`). A refused second request of a grabbing popup does the same
  (`SecondRequestTears`); no other event does (`TrackedIffNotTorn`).
- HDR metadata and swapchain feedback commute unless the feedback returns the same surface to
  sRGB (`MetadataCommutesIffNotReset`).
- The wrapped count query adds in 32 bits, so wrapping conforms if and only if the total fits
  (`WrapConformsIffCountFits`).

## Model

| member | source | states |
|---|---|---|
| `FrameRelay.UndamagedPixelsAgree` | moonshine-core/src/session/compositor/state.rs:873-886 | a pixel outside the damage accumulated since step `from` has the same value in every scene from that step on and in the new scene |
| `FrameRelay.PartialRedrawIsFullRedraw` | moonshine-core/src/session/compositor/state.rs:873-886 | repainting only the damage of an age that is 0, beyond the history, or not smaller than the steps since the buffer was painted yields the whole scene |
| `FrameRelay.PaintShowsScene` | moonshine-core/src/session/compositor/state.rs:873-890 | in every reachable state the age computed for the slot at the cursor is large enough: the render shows exactly the scene |
| `FrameRelay.PaintChangesOneSlot` | moonshine-core/src/session/compositor/state.rs:873-937 | a render that gets past `render_output`, its wait succeeding or not, makes the slot at the cursor hold the scene and leaves the other slots and frames alone |
| `FrameRelay.EveryFrameWillShowItsScene` | moonshine-core/src/session/compositor/state.rs:673-940 | in every run every queued or encoder-held pool frame shows the scene it was exported for once the GPU has done its work, across skips, failed binds, failed renders, failed waits, direct scanouts and full channels; before that only a frame with an unfinished slot can differ |
| `FrameRelay.EveryFrameShowsItsScene` | moonshine-core/src/session/compositor/state.rs:904-912 | in every run in which every fence is waited for, every such frame shows exactly its scene from the moment it is sent |
| `FrameRelay.FaithfulIffWaitSucceeded` | moonshine-core/src/session/compositor/state.rs:904-937 | an accepted render is faithful for all scenes if and only if its fence was waited for |
| `FrameRelay.UnfinishedFrameIsReachable` | moonshine-core/src/session/compositor/state.rs:910-912 | a first render whose wait fails queues a frame whose memory shows something else |
| `FrameRelay.PaintedFrameIsSentIffRoom` | moonshine-core/src/session/compositor/state.rs:924-937 | from every well-formed state a finished picture is appended to the queue, its slot staying in use, exactly when the channel is connected with fewer than two entries; a full channel frees the slot, a disconnected one keeps it; nothing else moves but the cursor |
| `FrameRelay.UnpaintedRenderSendsNothing` | moonshine-core/src/session/compositor/state.rs:714-772 | a render that paints nothing sends nothing and frees its slot exactly when export or bind failed; without a free slot nothing is started |
| `FrameRelay.DirectFrameIsSentIffRoom` | moonshine-core/src/session/compositor/state.rs:1027-1083 | a client buffer is queued under its own index, or the next one if it lost it, exactly when the channel has room; it is held under a new flag that is set at once when the channel is full |
| `FrameRelay.FramesArriveInOrder` | moonshine-core/src/session/compositor/mod.rs:148-148 | over every run the encoder receives exactly the frames sent, in that order; the rest are still queued or were dropped at a disconnect |
| `FrameRelay.AgeCountsRenders` | moonshine-core/src/session/compositor/state.rs:873-890 | the age of a slot is the number of `render_output` calls since the one that drew into it |
| `FrameRelay.CompositeConserves` | moonshine-core/src/session/compositor/state.rs:713-729 | a slot about to be rendered into belongs to no queued or encoder-held frame and to no abandoned render, and conservation survives every outcome |
| `FrameRelay.DirectConserves` | moonshine-core/src/session/compositor/state.rs:1069-1083 | lending a client buffer keeps frames exclusive and leaves slot conservation intact, in all three results of the send |
| `FrameRelay.StepKeepsSound` | moonshine-core/src/session/compositor/state.rs:673-940 | every compositor call and every encoder or channel event keeps exclusivity, conservation and lending |
| `FrameRelay.EveryRunIsSound` | moonshine-core/src/session/compositor/frame.rs:118-123 | in every interleaving slots in use are exactly those of outstanding frames plus the leaked ones, each for one reason only, no slot or flag is shared, and every unconsumed scanout frame has its buffer held under its unset flag |
| `FrameRelay.IdleCursorIsFree` | moonshine-core/src/session/compositor/state.rs:714-725 | after any run without leaks, when nothing is outstanding the slot at the cursor is free |
| `FrameRelay.LeakWedgesPool` | moonshine-core/src/session/compositor/state.rs:784-787 | once a slot leaked, any continuation starts at most two more renders, as many as slots lie between the cursor and the leak |
| `FrameRelay.OneFailureWedgesPool` | moonshine-core/src/session/compositor/state.rs:898-901 | a three-call run with one failed render after which nothing is outstanding, the channel is connected, and no continuation starts a render |
| `FrameRelay.StepApproachesLeak` | moonshine-core/src/session/compositor/state.rs:714-725 | every started render brings the cursor one slot nearer to a leaked slot and no step moves it away |
| `FrameRelay.ReclaimSplitsHeld` | moonshine-core/src/session/compositor/state.rs:675-685 | reclaiming keeps exactly the held entries whose flag is unset and drops the names of exactly the buffers with a set flag |
| `FrameRelay.ReclaimAppend` | moonshine-core/src/session/compositor/state.rs:675-685 | one more entry of the held list is kept, or dropped with its buffer's name, according to its flag |
| `FrameRelay.DirectKeepsLent` | moonshine-core/src/session/compositor/state.rs:1027-1083 | after a direct scanout every outstanding scanout frame still has its buffer held and its index naming its buffer |
| `FrameRelay.IndicesNameOneBufferForEver` | moonshine-core/src/session/compositor/state.rs:1027-1034 | over any run an issued index stays with its buffer, lies outside the pool range, and is the one every outstanding frame of that buffer carries |
| `FrameRelay.NameSurvivesIffNoFrameConsumed` | moonshine-core/src/session/compositor/state.rs:675-685 | a buffer keeps its index at a reclaim if and only if none of its held frames has been consumed |
| `FrameRelay.OneBufferUnderTwoIndices` | moonshine-core/src/session/compositor/state.rs:675-685 | a run that ends with two outstanding frames of one buffer under different indices |
| `CompositorRelay.Compositor.ReleaseScanoutBuffers` | moonshine-core/src/session/compositor/state.rs:675-685 | the retain loop leaves the held list and the index map as `Reclaim` specifies and nothing else changed |
| `CompositorRelay.Compositor.TryDirectScanout` | moonshine-core/src/session/compositor/state.rs:1027-1083 | the new state after naming, holding and sending a client buffer, including a full and a disconnected channel |
| `CompositorRelay.Compositor.SendPoolFrame` | moonshine-core/src/session/compositor/state.rs:924-937 | the new state after `try_send` of a pool frame in its three results |
| `CompositorRelay.Compositor.RenderInto` | moonshine-core/src/session/compositor/state.rs:738-937 | the new state after each of the six ways a render can end, a failed fence wait among them, and that the pool stays well formed |
| `CompositorRelay.Compositor.RenderAndExport` | moonshine-core/src/session/compositor/state.rs:662-940 | a call refines one `Tick` of the relay, for which exclusivity, conservation and faithfulness are proved |
| `SessionManager.EveryInterleavingIsGuarded` | moonshine-core/src/session/manager.rs:113-510 | in every interleaving the key sender exists exactly with a watchdog handle, the only live watchdog is that one and watches the current generation, sessions of the current generation are those on the current key channel, contexts come in pairs and never beside an empty slot or an Initialized session |
| `SessionManager.PutBackKeepsInv` | moonshine-core/src/session/manager.rs:336-342 | the unchecked put-back keeps these invariants whatever the slot holds by then |
| `SessionManager.OneSessionPerGeneration` | moonshine-core/src/session/manager.rs:265-310 | after any run two session objects of the current generation, in the slot or checked out, are the same |
| `SessionManager.WatchdogNeverAlreadyRunning` | moonshine-core/src/session/manager.rs:477-481 | after any run the branch that finds a watchdog already running is unreachable past the guard of `initialize_session` |
| `SessionManager.ResetHitsOwnGenerationIffNotAborted` | moonshine-core/src/session/manager.rs:477-510 | a watchdog on its way to the lock watches the current generation if and only if it was not aborted, and its reset only hits sessions of its own or an earlier generation |
| `SessionManager.LateResetWouldWipeNextSession` | moonshine-core/src/session/manager.rs:500-503 | a concrete run in which a reset by an already aborted watchdog would wipe the next session |
| `SessionManager.KeysReachSessionIffCurrent` | moonshine-core/src/session/manager.rs:452-474 | in every reachable state keys are accepted if and only if the slot holds an Active session, the current generation is not shutting down and a key sender is installed; they reach that session if and only if it is of the current generation |
| `SessionManager.KeysReachActiveInQuietRuns` | moonshine-core/src/session/manager.rs:452-474 | in runs without a reset during a checkout keys reach the Active session of a generation that is not shutting down |
| `SessionManager.ResetsEndGenerations` | moonshine-core/src/session/manager.rs:113-124 | exactly a stop with a session, a failed launch, a failed start with contexts and a watchdog not aborted end a generation; they clear everything and abort the watchdog, and a stop triggers the ended generation |
| `SessionManager.SlotAfterStep` | moonshine-core/src/session/manager.rs:265-425 | what every other step leaves in the slot |
| `SessionManager.ContextsAreLatestAnnounce` | moonshine-core/src/session/manager.rs:224-234 | after any run the stored contexts are those of the latest ANNOUNCE made beside a Launched session, unless a start request or reset came since |
| `SessionManager.StagesOnlyMoveForward` | moonshine-core/src/session/manager.rs:313-425 | over any run a session never reappears, never changes generation or channel, and its stage only moves Initialized, Launched, Active, and its streams, once started, stay under one shutdown manager |
| `SessionManager.StreamsGetOwnGenerationIffCurrent` | moonshine-core/src/session/manager.rs:356-366 | after any run the streams about to be started get the generation their session was built with if and only if the session listens on the current key channel |
| `SessionManager.StaleLaunchStartsUnwatched` | moonshine-core/src/session/manager.rs:336-389 | a run that ends with an Active session whose streams run under a later generation than its own and that has no watchdog |
| `SessionManager.ContextsFitIffNotStranded` | moonshine-core/src/session/manager.rs:407-418 | a step keeps contexts beside a Launched session only, if and only if it is not a successful start returning with contexts while later ones are stored |
| `SessionManager.ContextsFitUntilStranded` | moonshine-core/src/session/manager.rs:224-254 | so contexts rest only beside a Launched session in every run without such a return |
| `SessionManager.TwoSessionsAreReachable` | moonshine-core/src/session/manager.rs:336-342 | a run that ends with a Launched session in the slot and another one checked out |
| `SessionManager.StaleStartStrandsContexts` | moonshine-core/src/session/manager.rs:407-418 | that run continued: contexts of the second session beside the Active first one |
| `SessionManager.SingleSessionInQuietRuns` | moonshine-core/src/session/manager.rs:313-441 | with no watchdog reset during a checkout at most one session object exists, it and its streams are of the current generation and key channel, and contexts rest only beside a Launched session |
| `SessionManager.ResetDuringCheckoutAllowsTwoSessions` | moonshine-core/src/session/manager.rs:336-342 | every watchdog reset during a checkout can be followed by an accepted second session while the first is still held |
| `SessionManager.AbandonedLaunchOrphans` | moonshine-core/src/webserver/mod.rs:823-845 | a timed-out launch followed by `stop_session` leaves an empty slot with the old key sender installed |
| `SessionManager.MissingContextOrphans` | moonshine-core/src/session/manager.rs:391-396 | a start that finds a context missing leaves the same state |
| `SessionManager.OnlyWatchdogFreesOrphan` | moonshine-core/src/session/manager.rs:265-271 | from there, any run without a watchdog reset leaves the state behind the lock unchanged |
| `SessionManager.ShutdownFreesOrphan` | moonshine-core/src/session/manager.rs:477-510 | a shutdown trigger of the generation lets its watchdog reset such a manager, after which a session is accepted again |
| `SessionManager.OrphanAcceptsIffReset` | moonshine-core/src/session/manager.rs:265-271 | on such a manager, after any events that accept no session, a new session is accepted if and only if a watchdog reset has come |
| `SessionManager.RetryAfterLostSession` | moonshine-core/src/webserver/mod.rs:837-841 | after an abandoned launch or a start with a context missing, whatever happens in between short of an accepted session, refused retries included, a retry is accepted if and only if the watchdog has reset the manager |
| `SessionManager.FailedReturnHitsOwnGenerationIffCurrent` | moonshine-core/src/session/manager.rs:343-349 | after any run a failed launch or start resets the current generation, which is that of its own session if and only if that session is not of an earlier one, and is not when a current session is in the slot |
| `SessionManager.FailedLaunchWipesNextSession` | moonshine-core/src/session/manager.rs:343-349 | a run in which a late failed launch wipes the session initialized since |
| `SessionManager.Inner.ResetSession` | moonshine-core/src/session/manager.rs:113-124 | the whole manager state after a reset, with a new generation, and the handle that is aborted |
| `SessionManager.Inner.InitializeSession` | moonshine-core/src/session/manager.rs:265-310 | the new state, and acceptance exactly when slot and key sender are empty and construction succeeds |
| `SessionManager.Inner.TakeForLaunch` | moonshine-core/src/session/manager.rs:313-333 | an Initialized session is checked out; any other slot content is left as it was |
| `SessionManager.Inner.TakeForStart` | moonshine-core/src/session/manager.rs:356-389 | both contexts are always taken, the session, with the current shutdown manager, only if it is Launched |
| `SessionManager.Inner.FinishLaunch` | moonshine-core/src/session/manager.rs:336-350 | the second critical section refines `LaunchDone`, put-back or reset, and keeps the invariants of all interleavings whatever the slot holds by then |
| `SessionManager.Inner.FinishStart` | moonshine-core/src/session/manager.rs:391-425 | the same for `StartDone`; with a context missing nothing behind the lock changes |
| `SessionManager.Inner.SetStreamContext` | moonshine-core/src/session/manager.rs:224-254 | contexts are stored exactly beside a Launched session; the call succeeds for Launched and Active |
| `SessionManager.Inner.StopSession` | moonshine-core/src/session/manager.rs:428-449 | a reset and the stopped generation when the slot is full, nothing when it is empty |
| `SessionManager.Inner.UpdateKeys` | moonshine-core/src/session/manager.rs:452-474 | where keys are delivered, or refusal when shutting down, not Active, or without a sender |
| `WindowFocus.RetainRemovesAll` | moonshine-core/src/session/compositor/handlers.rs:505-505 | retaining removes every occurrence of the window and no other, as multisets |
| `WindowFocus.DetachUnlists` | moonshine-core/src/session/compositor/handlers.rs:500-511 | after detaching, the window is listed zero times under that parent, all other counts are unchanged and no empty list appears |
| `WindowFocus.IndexAlwaysAgrees` | moonshine-core/src/session/compositor/handlers.rs:1871-1896 | after any sequence of maps, parent changes, unmaps, destructions and dropdown clearing a window is listed under `p` exactly once if its metadata records parent `p`, not at all otherwise, and no empty list is kept |
| `WindowFocus.MetadataRefinesLog` | moonshine-core/src/session/compositor/handlers.rs:500-511 | after any run a window is tracked if and only if it was mapped and not unmapped, destroyed or cleared as override window since, with the parent and dropdown hint of its last change or of its map |
| `WindowFocus.OverrideRefinesLog` | moonshine-core/src/session/compositor/state.rs:1338-1340 | after any run the override window is the last one notified, unless it was unmapped or dropdowns were cleared since |
| `WindowFocus.IndexRefinesLog` | moonshine-core/src/session/compositor/handlers.rs:1871-1896 | so a window is in the list of `p` if and only if the events say that `p` is its parent |
| `WindowFocus.ListedWindowsAreTracked` | moonshine-core/src/session/compositor/handlers.rs:1377-1389 | a window is in the list of `p` if and only if it is tracked with parent `p` |
| `WindowFocus.FocusIndex.MapWindow` | moonshine-core/src/session/compositor/handlers.rs:1999-2005 | new metadata and index after a map, for a fresh window identity |
| `WindowFocus.FocusIndex.RemoveChild` | moonshine-core/src/session/compositor/handlers.rs:501-509 | the retain loop and the removal of an emptied list give the detached index |
| `WindowFocus.FocusIndex.TransientForChanged` | moonshine-core/src/session/compositor/handlers.rs:1871-1896 | metadata and index after a transient-for change, including an unchanged or a removed parent |
| `WindowFocus.FocusIndex.UnregisterWindow` | moonshine-core/src/session/compositor/handlers.rs:500-511 | metadata and index after an unmap or destroy |
| `WindowFocus.FocusIndex.ClearDropdownWindows` | moonshine-core/src/session/compositor/state.rs:1338-1357 | the override window, if any, is unregistered and forgotten |
| `WindowFocus.FocusIndex.BestChild` | moonshine-core/src/session/compositor/handlers.rs:1374-1402 | the head of the stably sorted unvisited children; none exactly when the metadata has no unvisited child; a dropdown only when no unvisited non-dropdown is tracked |
| `WindowFocus.FocusIndex.PromoteTransientChild` | moonshine-core/src/session/compositor/handlers.rs:1360-1423 | for every metadata state kept in agreement with its index, cyclic links included: the result is a non-dropdown child of the end of a trail of at most nine dropdown children, or the argument when the trail dead-ends or takes its tenth step; what counts as a dropdown is stated on the metadata fields |
| `WindowFocus.TrailVisitsNewIds` | moonshine-core/src/session/compositor/handlers.rs:1407-1413 | every step of the downward walk visits a new id, so the walk never runs round a cycle |
| `WindowFocus.WalkIsPeriodic` | moonshine-core/src/session/compositor/handlers.rs:524-538 | once an ancestor repeats, every later ancestor is one already seen |
| `WindowFocus.SearchOneMore` | moonshine-core/src/session/compositor/handlers.rs:527-538 | stopping at a missing or visited parent is safe: no ancestor at any distance is the focused window |
| `WindowFocus.FocusIndex.FindParent` | moonshine-core/src/session/compositor/handlers.rs:528-532 | any iteration order finds a real parent link, and the parent when ids are unique |
| `WindowFocus.FocusIndex.IsTransientOfFocused` | moonshine-core/src/session/compositor/handlers.rs:516-540 | yes only along a real chain of at most ten links; with unique ids, yes if and only if one of the first ten ancestors is the focused window |
| `ProcessWalk.WalkStopsAtFirst` | moonshine-core/src/session/compositor/handlers.rs:128-256 | the uncached walk stops at the first ancestor that is unreadable, a reaper, without a parent, pid 1 or carries an id, and which id that gives |
| `ProcessWalk.ScannedProcessIsCached` | moonshine-core/src/session/compositor/handlers.rs:93-115 | after a walk the scanned process has an entry with its id, which later queries find until it expires |
| `ProcessWalk.CachedWalkAgrees` | moonshine-core/src/session/compositor/handlers.rs:128-256 | for any truthful cache and any expiries the cached walk returns the id of the uncached one and leaves a truthful cache |
| `ProcessWalk.EveryAnswerIsUncached` | moonshine-core/src/session/compositor/handlers.rs:93-256 | over any history of queries with a changing process table every answer is that of the uncached walk |
| `ProcessWalk.AppIdCache.CacheGet` | moonshine-core/src/session/compositor/handlers.rs:93-106 | a live entry is returned, an expired one removed, an unreadable start time is a miss |
| `ProcessWalk.AppIdCache.CacheSet` | moonshine-core/src/session/compositor/handlers.rs:109-115 | the entry is stored exactly when the start time parses |
| `ProcessWalk.AppIdCache.GetAppIdFromPid` | moonshine-core/src/session/compositor/handlers.rs:128-256 | the loop terminates when the only parent cycle is pid 1 on itself and returns the id of the uncached walk |
| `PopupGrabs.GrabsAlwaysChain` | moonshine-core/src/session/compositor/popups.rs:86-121 | in every run the grabbing popups form a parent chain whose bottom was made for the focused toplevel, and the ring holds at most 64 serials |
| `PopupGrabs.ClimbsInChain` | moonshine-core/src/session/compositor/popups.rs:174-196 | the walk of `current_grab_descends_from` finds a popup exactly when the chain read downwards meets it before an unlinked popup |
| `PopupGrabs.ChainGetsYounger` | moonshine-core/src/session/compositor/popups.rs:86-121 | no popup occurs twice in the chain: stamps strictly increase towards the top |
| `PopupGrabs.PopThroughStopsAtTarget` | moonshine-core/src/session/compositor/popups.rs:200-212 | the pop loop leaves exactly the part of the stack below the target |
| `PopupGrabs.DismissCutsBranch` | moonshine-core/src/session/compositor/popups.rs:198-216 | a popup in the chain with only linked popups above it: exactly the part from it to the top is removed |
| `PopupGrabs.DismissSparesGrab` | moonshine-core/src/session/compositor/popups.rs:198-216 | in every other case, a popup outside the chain among them, the grab is untouched |
| `PopupGrabs.AncestorsAreTheChain` | moonshine-core/src/session/compositor/popups.rs:174-196 | the ancestors of a grabbing popup are the popups under it in the stack, itself, and the root |
| `PopupGrabs.RefreshSparesGrab` | moonshine-core/src/session/compositor/popups.rs:294-310 | a refresh that lists no unmapped grabbing popup leaves the grab, and its place in the popup tree, alone |
| `PopupGrabs.FirstMetIsLowest` | moonshine-core/src/session/compositor/popups.rs:302-303 | walking the list from its end, the first unmapped grabbing popup met is the lowest of the chain |
| `PopupGrabs.LowestIsNotCut` | moonshine-core/src/session/compositor/popups.rs:198-216 | with another unmapped popup above it the lowest one is not popped, but it and the top of the chain leave the popup tree |
| `PopupGrabs.CutOffRefresh` | moonshine-core/src/session/compositor/popups.rs:294-310 | once the top has left the popup tree a refresh pops it alone, and only if it is listed and unmapped |
| `PopupGrabs.RefreshExactly` | moonshine-core/src/session/compositor/popups.rs:294-320 | what a refresh leaves of a grab that is in the popup tree, in every case, and that it is still in the tree if and only if at most one grabbing popup was unmapped |
| `PopupGrabs.RefreshKeepsMappedPartIffOneUnmapped` | moonshine-core/src/session/compositor/popups.rs:294-320 | a refresh leaves exactly the part of the chain below the lowest unmapped popup if and only if at most one grabbing popup is unmapped; otherwise all of it stays, or all but an unmapped top |
| `PopupGrabs.TrackedOrCutOff` | moonshine-core/src/session/compositor/popups.rs:174-196 | in every reachable state a grab is in the popup tree as a whole or its topmost popup is not in it |
| `PopupGrabs.TrackedIffNotTorn` | moonshine-core/src/session/compositor/popups.rs:31-121 | a step keeps all grabbing popups in the popup tree if and only if it is not a refresh with two of them unmapped or a refused second request of one of them |
| `PopupGrabs.UntornGrabsStayTracked` | moonshine-core/src/session/compositor/popups.rs:31-121 | in every run without such events all grabbing popups stay in the popup tree |
| `PopupGrabs.TornGrabIsStuck` | moonshine-core/src/session/compositor/popups.rs:294-320 | in every run in which the focus stays and the window is not dismissed, a grab whose top has left the popup tree never changes again |
| `PopupGrabs.UnmappedMenuIsNotCut` | moonshine-core/src/session/compositor/popups.rs:198-216 | with a grabbing menu and submenu both unmapped, dismissing the menu leaves the grab untouched |
| `PopupGrabs.BothUnmappedIsReachable` | moonshine-core/src/session/compositor/popups.rs:31-121 | the run from the initial state that opens, grabs and unmaps menu and submenu |
| `PopupGrabs.UnmappedMenuKeepsGrab` | moonshine-core/src/session/compositor/popups.rs:294-320 | the refresh of that state leaves the unmapped menu grabbing outside the popup tree, for as long as focus and window stay |
| `PopupGrabs.SecondRequestTears` | moonshine-core/src/session/compositor/popups.rs:80-84 | a run in which a grabbing menu asks again with an undelivered serial and leaves the popup tree while it still grabs |
| `PopupGrabs.BelowIffAncestor` | moonshine-core/src/session/compositor/popups.rs:174-196 | the subtree test is ancestry along the parents popups were made with |
| `PopupGrabs.DismissRemovesDescendants` | moonshine-core/src/session/compositor/popups.rs:198-216 | dismissing a popup takes exactly it and its descendants out of the popup tree |
| `PopupGrabs.WindowPopupsLeaveTree` | moonshine-core/src/session/compositor/popups.rs:150-170 | dismissing a window takes exactly its popups out of the tree and ends exactly its own grab; a focus change does that to the old window and revokes all serials |
| `PopupGrabs.RootIffMappedAncestry` | moonshine-core/src/session/compositor/popups.rs:31-36 | a popup has root `t` if and only if its ancestry ends in `t` over mapped popups |
| `PopupGrabs.OnlyTrackingMakesPopups` | moonshine-core/src/session/compositor/handlers.rs:1552-1561 | a new popup is recorded as requested and enters the tree exactly when its parent is a toplevel or in it; no other event records or changes one |
| `PopupGrabs.PopupsAreAsMade` | moonshine-core/src/session/compositor/handlers.rs:1552-1561 | over any run every popup has the parent and client of the request that made it |
| `PopupGrabs.GrabExactly` | moonshine-core/src/session/compositor/popups.rs:31-121 | from every reachable state, exactly when a request dismisses the popup with its descendants, exactly when it grabs, and that it changes nothing otherwise |
| `PopupGrabs.RingIsLatestDeliveries` | moonshine-core/src/session/compositor/input_serials.rs:23-38 | after any run the ring is the last 64 deliveries since the focus last changed |
| `PopupGrabs.GrabNeedsRecentDelivery` | moonshine-core/src/session/compositor/popups.rs:43-51 | after any run a grab is granted if and only if the popup is in the tree of the focused window, was made for the top of the grab, and its serial was delivered to its own client among the last 64 deliveries since the focus changed, and seat and popup manager agree |
| `PopupGrabs.InputSerials.RecordSerial` | moonshine-core/src/session/compositor/input_serials.rs:23-28 | the oldest entry is dropped at capacity and the new one appended |
| `PopupGrabs.InputSerials.Contains` | moonshine-core/src/session/compositor/input_serials.rs:30-34 | true if and only if the pair of serial and client is recorded |
| `PopupGrabs.PopupState.CurrentGrabDescendsFrom` | moonshine-core/src/session/compositor/popups.rs:174-196 | the loop terminates and answers whether the topmost grab climbs to the popup |
| `PopupGrabs.PopupState.DismissPopupBranch` | moonshine-core/src/session/compositor/popups.rs:198-216 | the new state after the pop loop and the dismissal of the subtree |
| `PopupGrabs.PopupState.RefreshPopups` | moonshine-core/src/session/compositor/popups.rs:294-310 | the new state after dismissing the unmapped popups of a front-to-back list from its end, parents first |
| `PopupGrabs.PopupState.GrabPopup` | moonshine-core/src/session/compositor/popups.rs:31-121 | the new state for each of the refusals, the protocol error and the accepted grab |
| `PopupGrabs.PopupState.DismissPopupsForWindow` | moonshine-core/src/session/compositor/popups.rs:150-170 | the grab ends if it is the window's or no window is given, and the window's popups leave the popup tree |
| `PopupGrabs.PopupState.FocusChanged` | moonshine-core/src/session/compositor/handlers.rs:1029-1036 | serials are revoked, the old window's grab ends and its popups are dismissed |
| `Pairing.EcbRoundTrip` | moonshine-core/src/clients.rs:313-341 | decrypting undoes encrypting for every whole number of blocks, any key and any lawful block cipher |
| `Pairing.EcbKeepsLength` | moonshine-core/src/clients.rs:313-341 | whole blocks keep their length |
| `Pairing.EcbIsBlockwise` | moonshine-core/src/clients.rs:313-341 | each block of the result is the block function of the same block of the data |
| `Pairing.RunEcb` | moonshine-core/src/clients.rs:313-341 | the in-place block loop computes ECB and fails exactly when the length is not a multiple of 16 |
| `Pairing.ClientsDoNotInterfere` | moonshine-core/src/clients.rs:84-213 | in any interleaving a client's pending record is what its own requests alone produce |
| `Pairing.PairingIsPermanent` | moonshine-core/src/state.rs:96-138 | persisted ids and certificates are never removed |
| `Pairing.RecordReflectsStart` | moonshine-core/src/clients.rs:84-90 | a record exists exactly after a start, with the certificate and salt of the last one |
| `Pairing.RecordReflectsPin` | moonshine-core/src/clients.rs:92-103 | the key is derived from the last PIN since the last start, or absent |
| `Pairing.RecordReflectsAnswer` | moonshine-core/src/clients.rs:105-150 | the server challenge is the latest one answered since the last start, or absent |
| `Pairing.RecordReflectsResponse` | moonshine-core/src/clients.rs:152-182 | the client hash is the decryption, under the key of that moment, of the latest response taken since the last start, or absent |
| `Pairing.RecordReflectsSecret` | moonshine-core/src/clients.rs:105-150 | the server secret is the last one drawn since the last start, also when that challenge then failed, or absent |
| `Pairing.VerifiedIffProven` | moonshine-core/src/clients.rs:270-311 | the check on the pending record holds if and only if, on the requests alone: since the last start, with a PIN before each, a challenge was answered and a response taken, the response decrypted with the key of salt and PIN is the hash of the latest server challenge, the client certificate's signature and the revealed secret, and the secret is signed with that certificate |
| `Pairing.SecretPairsIffProven` | moonshine-core/src/clients.rs:184-213 | the last request adds its id exactly when that holds and a new certificate could be saved, its certificate exactly when that holds, and otherwise nothing |
| `Pairing.PairedOnlyAfterWholeExchange` | moonshine-core/src/clients.rs:184-311 | in any interleaving an id becomes persisted only by such a proven request |
| `Pairing.RepliesExactly` | moonshine-core/src/clients.rs:105-182 | exactly when a challenge is answered and a response replied to, and with what |
| `Pairing.ServerProvesItself` | moonshine-core/src/clients.rs:105-182 | the client can decrypt the server's answer to the hash of its own challenge, the server's certificate signature and the secret the server then reveals and signs |
| `Pairing.HonestRecordVerifies` | moonshine-core/src/clients.rs:270-311 | both sides hash the same concatenation: the honest responses make the revealed secret verify |
| `Pairing.HonestClientIsPaired` | moonshine-core/src/clients.rs:84-227 | for every salt, PIN, certificate and random values, in any interleaving with other clients, a client that follows the steps is persisted together with its certificate |
| `Pairing.ClientManager.StartPairing` | moonshine-core/src/clients.rs:84-90 | any earlier record of the id is replaced by a fresh one |
| `Pairing.ClientManager.RegisterPin` | moonshine-core/src/clients.rs:92-103 | the key is set, or an unknown id refused |
| `Pairing.ClientManager.ClientChallenge` | moonshine-core/src/clients.rs:105-150 | record and reply after each error and success, including which fields are already set when a later step fails |
| `Pairing.ClientManager.ServerChallengeResponse` | moonshine-core/src/clients.rs:152-182 | record and reply after each error and success |
| `Pairing.ClientManager.CheckClientPairingSecret` | moonshine-core/src/clients.rs:184-213 | new persisted sets, and success exactly when the secret verifies and the saves that are needed succeed |
| `PenInput.SyncAccepted` | moonshine-core/src/session/compositor/input.rs:566-583 | half-way through a synchronisation the trace so far is accepted and the buttons handled so far are as in the new mask |
| `PenInput.ReleaseAccepted` | moonshine-core/src/session/compositor/input.rs:552-564 | a release closes the bracket with every button released |
| `PenInput.TouchAccepted` | moonshine-core/src/session/compositor/input.rs:612-653 | the calls of a pen in or coming into proximity are accepted and leave the fields matching the trace |
| `PenInput.ProcessAccepted` | moonshine-core/src/session/compositor/input.rs:585-653 | so are the calls of any event; a cancel or leave ends outside any bracket with nothing pressed |
| `PenInput.TraceIsWellFormed` | moonshine-core/src/session/compositor/input.rs:552-653 | over every sequence of events the calls form non-overlapping proximity brackets of one tool, presses and releases alternate inside them, and the pen fields always equal what an observer of the trace concludes |
| `PenInput.ActiveIffNear` | moonshine-core/src/session/compositor/input.rs:585-625 | after any run a tool is active if and only if it was positioned over a surface on a registered tablet and no cancel, leave or other tool came since |
| `PenInput.ButtonsAreLatest` | moonshine-core/src/session/compositor/input.rs:585-653 | after any run the buttons are those of the last event that can change them, and none outside a bracket |
| `PenInput.PressedIsWhatEventsSay` | moonshine-core/src/session/compositor/input.rs:566-583 | so are the buttons an observer of the calls sees pressed, by their evdev codes |
| `PenInput.TipIsWhatEventsSay` | moonshine-core/src/session/compositor/input.rs:642-652 | over every run the tip an observer sees is down if and only if a down or move was handled in the current bracket and no up since; it is up outside a bracket |
| `PenInput.AxesAreWhatEventsAsk` | moonshine-core/src/session/compositor/input.rs:626-640 | over every run distance is sent once per handled hover, pressure once per other handled event, tilt once where known and motion once each, for the event's own tool |
| `PenInput.PenState.SyncPenButtons` | moonshine-core/src/session/compositor/input.rs:566-583 | the loop emits one call per differing button, in table order |
| `PenInput.PenState.ReleasePen` | moonshine-core/src/session/compositor/input.rs:552-564 | new fields and calls of a release |
| `PenInput.PenState.ProcessPenInput` | moonshine-core/src/session/compositor/input.rs:585-653 | new fields and calls of any event |
| `ColorState.SwapchainRefinesLog` | moonshine-core/src/session/compositor/gamescope_swapchain.rs:57-81 | after any log a surface's swapchain space and metadata are the last HDR space and the last plausible metadata since its last sRGB feedback, re-creation, replacement or destruction |
| `ColorState.PendingRefinesLog` | moonshine-core/src/session/compositor/color_management.rs:265-273 | after any log the pending description is the last one declared since the last commit or destruction |
| `ColorState.CurrentRefinesLog` | moonshine-core/src/session/compositor/color_management.rs:339-368 | after any log the current description is the last committed one, if the surface was not destroyed since |
| `ColorState.OverrideRefinesLog` | moonshine-core/src/session/compositor/state.rs:1292-1319 | after any log the override surface is the last one requested and not dropped |
| `ColorState.FrameSpaceRefinesLog` | moonshine-core/src/session/compositor/color_management.rs:378-396 | after any log the frame space is BT.2020 PQ if any surface's logged colours are, else scRGB if any are, else sRGB |
| `ColorState.FrameSpaceByNumbers` | moonshine-core/src/session/compositor/gamescope_swapchain.rs:52-81 | the same in Vulkan colour-space numbers and named transfer functions and primaries |
| `ColorState.SwapchainDescriptionRefinesLog` | moonshine-core/src/session/compositor/color_management.rs:217-231 | after any log the swapchain's image description is its last HDR space with its last plausible metadata, and none without a space |
| `ColorState.MetadataNeverChangesFrameSpace` | moonshine-core/src/session/compositor/color_management.rs:292-332 | a metadata request never changes the frame space |
| `ColorState.MetadataCommutesIffNotReset` | moonshine-core/src/session/compositor/gamescope_swapchain.rs:127-135 | plausible metadata and feedback commute if and only if the feedback does not return the same surface to sRGB |
| `ColorState.ColorManagement.CommitSurface` | moonshine-core/src/session/compositor/color_management.rs:339-368 | the new maps after a commit with a description, an unset, or nothing pending |
| `ColorState.ColorManagement.SwapchainFeedback` | moonshine-core/src/session/compositor/gamescope_swapchain.rs:57-81 | the new maps for each Vulkan colour space, unknown ones included |
| `ColorState.ColorManagement.SetGamescopeHdrMetadata` | moonshine-core/src/session/compositor/color_management.rs:296-332 | plausible metadata is stored beside the space, other metadata discarded |
| `ColorState.ColorManagement.OverrideWindowSurface` | moonshine-core/src/session/compositor/state.rs:1310-1318 | a replaced override surface loses its swapchain colours |
| `ColorState.ColorManagement.FindSpace` | moonshine-core/src/session/compositor/color_management.rs:379-395 | a pass finds a wanted space exactly when some surface has one, in any iteration order |
| `ColorState.ColorManagement.GetFrameColorSpace` | moonshine-core/src/session/compositor/color_management.rs:378-396 | the two passes return the one specified space whatever the iteration order |
| `VulkanEnumeration.WrapConformsIffCountFits` | moonshine-wsi/src/surface.rs:608-649 | over a conforming enumerator of `n` entries the wrapper conforms for `n + E` entries, writing `min(k, n + E)` of them and succeeding exactly when all fit, if and only if the total fits in 32 bits |
| `VulkanEnumeration.WrapKeepsBothLists` | moonshine-wsi/src/surface.rs:466-514 | which entries the caller gets: the driver's into the remaining room, then all extras, or only the first extras when there is less room |
| `VulkanEnumeration.WrapForwardsErrors` | moonshine-wsi/src/surface.rs:466-497 | an error of the driver is passed on as it is, with nothing appended |
| `VulkanEnumeration.WrapTwice` | moonshine-wsi/src/surface.rs:608-649 | wrapped enumerators can be wrapped again |
| `VulkanEnumeration.OwnListWrapsNothing` | moonshine-wsi/src/surface.rs:428-465 | asking for the layer by its own name is wrapping a driver with no entries |
| `VulkanEnumeration.AppendEntries` | moonshine-wsi/src/surface.rs:608-649 | the writes through the caller's buffer give the wrapper's reply, never pass the capacity and touch nothing behind the written entries |

## Left out

- The encoder, audio, control and video packet code: the encoder is an environment that receives in order and sets a frame's flag once after its last read.
- Damage tracking: by the contract of buffer ages (EGL_EXT_buffer_age); `scene` stands for the rendered elements and pixels for the memory of a buffer.
- The arm for an output without a mode: the only output gets its mode before the compositor exists (moonshine-core/src/session/compositor/mod.rs:336-366) and nothing changes it later.
- The GPU: does the work submitted to it in order, so a fence that was waited for finishes all earlier renders; what memory shows of an unfinished slot is arbitrary.
- Whether a frame is attempted at all (static screen, keep-alive time, scanout eligibility) is the caller's choice of `Call`; `try_direct_scanout` and its override variant share one model because they differ only in which surface they read.
- SessionManager.Stop: the trigger of the stopped generation happens in the same step as the reset; no live watchdog of that generation is left to observe the difference.
- SessionManager.Step: task aborts take effect at the next await, timeouts are the event `EAbandon`, and the streams a session owns are not modelled.
- WindowFocus.FocusIndex.PromoteTransientChild: requires index agreement, which every run has, instead of arbitrary unrelated maps.
- Window-type notifications, which change only the dropdown hint of a window; the index does not depend on it.
- Focus priorities, candidate selection, overlays and X11 property publishing: ranking by a key, without state of their own.
- ProcessWalk.Matches: the name, the command line and whether the parent lies outside the tree are fixed per pid and start time (no `exec` between walks, no reparenting to pid 0); other reparenting is allowed. `/proc/0` and `/proc/4294967295` are unreadable. Reading `/proc` is atomic per process.
- Popup destruction and liveness, the client kill after a protocol error, and the keyboard, pointer and touch grab handles: the checks on them are the parameter `seatOk`, the popup manager's own check `accepted`. A client that destroys its popups, or a click outside them, also ends a grab; `TornGrabIsStuck` is about the events of the model.
- Block cipher, SHA-256, X.509 and signatures: parameters with laws; nothing is claimed about cryptographic strength. The wait for the PIN to be entered and lock poisoning are not modelled.
- Pen coordinates, timestamps and the values of pressure, distance and tilt: only which calls are made, in which order.
- Selection and clamping of HDR metadata for the encoder, and the refresh cycle reply.
- The Vulkan entry points around the wrappers, surface and swapchain creation.
- HTTP and RTSP routing, mDNS, health checks, configuration, application scanners, icons, logging, benchmarks.
