# A verified model of the repe-rs runtime

This project models the parts of repe-rs, a Rust implementation of the REPE remote procedure call protocol, in which
several operations have to agree over every input or every interleaving, and proves that they do. `dafny verify
dfyconfig.toml` checks all of it.

What is modelled, and the main result of each part:

* **Resumable streams** (`ReplayRing`, `TransferControl`, `TransferHistory`, `Wakeups`, `Window`, `Delivery`,
  `EarlyResume`, `Recovery`, `Completion`, `Stranding`, `RecoveryWindow`, `WindowOverruns`). The replay ring, the
  credit window, staged resumes and the one mutex and condvar around them. What a control holds after any sequence of
  calls is read off the sequence, no wakeup is lost, and a resume is taken once. Three theorems quantify over the
  policies an application can follow and every run under them. What the receiver has is exact, each file once and in
  order, if and only if resumes are accepted only where they do no harm. Under such policies the receiver is never
  left behind, other than by a cancel, a stop or a body the ring no longer holds, if and only if the producer waits
  for a file to be complete before the next one and, between chunks, looks whether the peer is gone. Unacknowledged
  bytes stay within the window through every recovery if and only if replays are recorded, cut-off replays park, and
  no resume is accepted in the middle of a replay that is somewhere else.
* **Client multiplexing** (`ClientCalls`, `BatchCalls`). Any number of concurrent calls, timeouts, one reader and a
  fatal read error. Every call returns what happened to it and nothing else, no response reaches another call, no call
  waits for ever once the reader is gone, and a batch answers request i in slot i.
* **Dispatch** (`Router`, `RouterTable`, `Dispatch`, `Serving`). A router that keeps prebuilt handlers, mounts,
  fall-through, middleware, and three carriers. The prebuilt handlers are those composing on demand would give, the
  order of registrations does not matter, the carriers put the same octets on the wire, and those octets, read back, tell
  each request what became of it.
* **Peer table** (`PeerRegistry`). Three maps that refine one ordered list.
* **Codecs** (`JsonPointer`, `Segments`, `Registry`, `Rest`, `Header`, `Message`, `Io`). Round trips in both directions,
  the grammars and the octet layout themselves, every refusal with its reason, the in-place frame, self-delimiting frames
  under short reads.

A protocol is a state machine whose events are single lock acquisitions or channel operations. `Enabled` and `After`
give its steps, `IsRun` its interleavings, and theorems quantify over all runs. Where the source updates an object in
place, a class performs the same operation in place and its `ensures` gives the whole new state as the step function.

Where the code and its documentation disagree the code is followed:

* The documentation of `canonical` says that it inverts `parse` on every accepted pointer. The empty pointer comes back
  as `/`. `CanonicalOfParse` states that this is the only exception.
* The documentation of `with_segments` says that it mirrors `parse` byte for byte. It differs on `/` and on relative
  pointers without escapes. `SplitterAgreesWithParse` gives the exact set.
* `normalize_mount` says that every mount in the crate is read alike. A struct root keeps its trailing slashes, as
  `RootIsMountUnlessTrailingSlash` states.
* The streaming guide (docs/streaming.md, lines 50 to 52) replays bodies without `record_sent` and ignores a failed
  replay. Delivery stays exactly-once, but each of the two loses the window bound: `UnrecordedReplayOverrunsWindow` and
  `UnparkedReplayOverrunsWindow` are the runs, and `WindowHoldsIffCountKept` is the exact condition.
* The lifecycle (src/stream.rs, lines 34 to 44) parks the producer only when a send fails. A producer that has sent its
  last chunk, or waits for credit, sends nothing, so a loss then goes unseen and the receiver is left behind although its
  resume would be accepted: `TailCanBeLost` and `WindowCanBeLost` are the runs, and `NeverLeftBehindIffWaitsAndLooks` is
  the exact condition.
* The documentation of `PendingResume` (src/stream.rs, lines 142 to 144) calls a second resume during a replay legal.
  It is harmless only when the replay has come to the very chunk the receiver asks for; otherwise the receiver gets wrong
  data. `ExactlyOnceIffResumesAligned` gives the exact condition for a resume in every phase of the producer.

## Model

| member | source | states |
|---|---|---|
| Replay.RingIsLongestFittingSuffix | src/stream.rs:187-220 | After any pushes the ring is a suffix of what was pushed; it fits the budget or is the last body alone, and every longer suffix is over budget |
| Replay.PushKeepsRun | src/stream.rs:187-220 | A push keeps the ring free of gaps and overlaps, ends it at the new chunk, and adds nothing else |
| Replay.CoversIffBoundary | src/stream.rs:238-248 | An offset is covered exactly when it is the start of the run plus the logical bytes of some number of retained chunks |
| Replay.ReplayIsSuffix | src/stream.rs:252-258 | Replay drops exactly the chunks that start before the offset |
| Replay.ReplayTilesTail | src/stream.rs:238-258 | A covered offset is replayed by a suffix that tiles the range up to the trailing edge |
| Replay.FittingBoundaryIsCovered | src/stream.rs:187-248 | A pushed boundary whose remaining wire bytes fit the capacity is covered whatever was pushed before it |
| Replay.ReplayRing.constructor | src/stream.rs:179-185 | A new ring holds nothing |
| Replay.ReplayRing.PushBack | src/stream.rs:187-220 | The eviction loop leaves the specified ring, and the byte count stays the sum of retained bodies |
| Replay.ReplayRing.Clear | src/stream.rs:222-225 | Ring and byte count are emptied together |
| Replay.ReplayRing.CoversOffset | src/stream.rs:238-248 | The scan decides coverage |
| Replay.ReplayRing.ChunksFrom | src/stream.rs:252-258 | The filter returns the replay of an offset, in order |
| Transfer.EveryRunStaysBounded | src/stream.rs:407-586 | Over every sequence of control calls `acked <= sent`, budgets are fixed, the first cancel reason stands, and no resume is staged after it |
| Transfer.CountersGrowWithinFile | src/stream.rs:518-541 | Between file boundaries neither counter ever decreases |
| Transfer.TransferControl.constructor | src/stream.rs:329-354 | Fresh state with the given budgets |
| Transfer.TransferControl.Record | src/stream.rs:518-524 | `sent` only moves forward, and nobody is notified |
| Transfer.TransferControl.Ack | src/stream.rs:529-541 | An ACK for the current file, capped at `sent`, moves `acked` forward and notifies; anything else changes nothing |
| Transfer.TransferControl.CancelWith | src/stream.rs:545-551 | Only the first cancel takes effect and notifies |
| Transfer.TransferControl.Resume | src/stream.rs:407-442 | The reply, in the order cancelled, wrong file, out of window, accepted; only an accepted resume swaps the peer, stages, credits and notifies, all in one section |
| Transfer.TransferControl.Advance | src/stream.rs:573-586 | A file boundary resets counters, ring and staged resume, and notifies |
| Transfer.TransferControl.PushBody | src/stream.rs:384-387 | A push changes the ring alone |
| Transfer.TransferControl.Install | src/stream.rs:359-362 | Installing a peer changes the peer alone |
| Transfer.TransferControl.WaitForCredit | src/stream.rs:483-508 | The wait ends at its first wakeup with credit or a cancel, a cancel taking precedence, and times out only if no wakeup had either |
| Transfer.TransferControl.WaitForReconnect | src/stream.rs:452-472 | The same for a staged resume, which is consumed on success and only then |
| TransferHistory.ControlIsReadOff | src/stream.rs:359-586 | After any sequence of control calls the whole guarded value is what the sequence says, read off it without performing anything: file, first cancel, bytes sent, acknowledged and retained since the last file boundary, peer and staged resume |
| TransferHistory.PeerIsLastInstalled | src/stream.rs:359-442 | The peer is that of the last install or accepted resume; a resume is accepted when nothing was cancelled, it names the current file and it asks for a boundary of what the ring retains |
| TransferHistory.ResumeAnswers | src/stream.rs:407-442 | After any sequence, which of the four answers a resume gets, with both file numbers on a mismatch and the offset asked for on success |
| TransferHistory.WaitersSee | src/stream.rs:452-508 | After any sequence, a waiter sees the reason of the first cancel before anything else; credit exactly when nothing is in flight or the chunk fits beside what is; a resume exactly when one is still to be taken |
| TransferHistory.NotifiesExactly | src/stream.rs:407-586 | Waiters are notified by a cancel or an ACK exactly when it changes something, by a resume exactly when it is accepted, by every file boundary, and by nothing else |
| Wakeups.ReadyingSectionNotifies | src/stream.rs:407-586 | A critical section that makes a wait condition true notifies |
| Wakeups.NoLostWakeup | src/stream.rs:452-586 | In every interleaving of any number of threads, a thread asleep and not notified has a false wait condition |
| Wakeups.ReadySleeperReturns | src/stream.rs:452-508 | From a fresh control, a sleeper whose condition holds has been notified and returns when it wakes |
| Wakeups.WakeReturnsIffReadyOrExpired | src/stream.rs:452-508 | A woken waiter returns exactly when it has something to return or its deadline has passed, and changes nothing but the resume it takes |
| Wakeups.ResumeIsTakenOnce | src/stream.rs:407-472 | In every interleaving of any number of waiters each accepted resume is taken by at most one of them: taken plus staged never exceeds accepted |
| Window.WindowBound | src/stream.rs:483-541 | When every record extends `sent` by the credited length, in-flight bytes never exceed the larger of window and last chunk, whatever ACKs, resumes, cancels and file boundaries come between |
| Window.WindowBoundFromStart | src/stream.rs:483-541 | The same from a fresh control, with `acked <= sent` |
| Delivery.StepKeepsInv | src/stream.rs:27-49 | Every step of producer, link, handlers and receiver, under a policy whose resumes do no harm, keeps what the producer sends next in line with what the receiver has |
| Delivery.DeliveryIsExactlyOnce | src/stream.rs:27-49 | In every run under such a policy, with any drops and reconnects, the files the receiver takes for complete are the sent files byte for byte and the data since is a prefix of the next |
| Delivery.FileCompletesWithItsLastChunk | src/stream.rs:569-586 | With the link up and drained, the receiver has completed the producer's file exactly when its last chunk was emitted |
| EarlyResume.MisalignedResumeFails | src/stream.rs:423-439 | For each phase in which a resume may find the producer about to send something else, a run from the start that ends with wrong data |
| EarlyResume.ExactlyOnceIffResumesAligned | src/stream.rs:407-472 | For every policy: every run of every job is exactly-once if and only if, besides a parked or stopped producer, resumes are accepted only when it is about to send the chunk asked for |
| Recovery.ResumeIsAcceptedWithinBudget | src/stream.rs:407-442 | A resume at the receiver's true offset is accepted whenever the missing bodies fit the ring |
| Recovery.RecoveryCatchesUp | src/stream.rs:27-49 | From any parked state that accepts the receiver's resume there is a run after which the receiver has everything that was pushed |
| Recovery.RefusedReceiverGetsNothing | src/stream.rs:407-422 | A parked producer with nothing staged that refuses the resume of a receiver that has not completed its file refuses it in every continuation, and the receiver gets nothing more |
| Completion.StepKeepsSound | src/stream.rs:483-541 | Every step under such a policy also keeps `acked <= sent`, never beyond what was pushed |
| Completion.ParkDown | src/peer.rs:170-176 | On a dead link a producer that looks can park from every phase without losing anything |
| Completion.Settle | src/stream.rs:407-472 | From every state that was not given up, some sensible continuation brings the producer to rest on a live link, or the job is complete |
| Completion.FinishFile | src/stream.rs:483-541 | From rest a truthful ACK frees the whole window and the rest of the file goes through |
| Completion.JobCanComplete | src/stream.rs:27-49 | From every state of a looking producer that has not run ahead of the receiver and has not given up, some sensible continuation delivers every file |
| Stranding.StrandedIsLeftBehind | src/stream.rs:417-422 | A receiver whose file the producer has left, with the rest of it lost, gets nothing more under any policy |
| Stranding.LostTailIsLeftBehind | src/stream.rs:34-44 | A producer that has emitted its file and does not look never parks, so a receiver that lost the end of it gets nothing more |
| Stranding.LostWindowIsLeftBehind | src/stream.rs:483-508 | Nor does one whose lost chunks fill the window, as no truthful ACK gives credit |
| Stranding.TailCanBeLost | src/stream.rs:34-44 | Under every policy there is a run into the first of the two, with the receiver's resume acceptable |
| Stranding.WindowCanBeLost | src/stream.rs:34-44 | And one into the second |
| Stranding.EarlyAdvanceStrands | src/stream.rs:573-586 | A producer that does not wait has a run that leaves the receiver's file with its end lost |
| Stranding.ReachableJobCompletes | src/stream.rs:27-49 | From every reachable state of a waiting, looking producer that has not given up, some sensible continuation delivers the whole job |
| Stranding.NeverLeftBehindIffWaitsAndLooks | src/stream.rs:27-49 | For every policy whose resumes do no harm: no run leaves the receiver behind without the transfer being given up if and only if the producer waits and looks |
| RecoveryWindow.StepStaysSteady | src/stream.rs:483-541 | Every step that keeps count leaves the receiver, even one with garbled data, no further than what was recorded |
| RecoveryWindow.WindowHoldsThroughRecovery | src/stream.rs:483-541 | For a producer that records replays, parks on a cut-off replay and is not resumed in the middle of a replay that is somewhere else, the window bound holds through every disconnect, resume and replay, even with garbled data |
| WindowOverruns.UnrecordedReplayOverrunsWindow | docs/streaming.md:36-53 | For any two chunks that each fit the window but not together, a producer that replays unrecorded has a run that ends with both in flight |
| WindowOverruns.UnparkedReplayOverrunsWindow | docs/streaming.md:36-53 | So has one that records every replay but carries on when a replay is cut off |
| WindowOverruns.ResumeInReplayOverrunsWindow | src/stream.rs:423-439 | So has one that keeps count in everything else but is resumed in the middle of a replay: the garbled receiver stages an offset above `sent` |
| WindowOverruns.WindowHoldsIffCountKept | src/stream.rs:483-541 | For every policy: the bound holds in every run if and only if replays are recorded, cut-off replays park and no resume is accepted in the middle of a replay that is somewhere else |
| ClientCalls.StepKeepsInv | src/client.rs:520-756 | Every lock acquisition of caller or reader keeps each call's one sender in exactly one place |
| ClientCalls.CallsGetTheirOwnResponse | src/client.rs:520-620 | In every run a response a call returned with has its own id and this version, no call returns a foreign id or a closed channel, and none that returned has a pending entry left |
| ClientCalls.ResponsesComeFromTheWire | src/client.rs:688-756 | In every run, the response, foreign version or fatal error a call returned with was read off the connection |
| ClientCalls.CallReturnsWhatHappened | src/client.rs:547-620 | In every run, of every returned call: timed out exactly when its wait expired, write failure exactly when its write failed, and otherwise what the one letter it took says: success for a response of this version with code 0, server error for any other code, version mismatch for another version, the failure for a fatal letter |
| ClientCalls.ResponseReachesItsCall | src/client.rs:688-730 | A response read for a pending call that waits is handed to that call, which then returns with it |
| ClientCalls.IdsAreConsecutive | src/client.rs:85-87 | Calls and notifies together take consecutive ids |
| ClientCalls.OutcomeIsFinal | src/client.rs:520-583 | A returned call keeps its one outcome in every continuation |
| ClientCalls.LateResponseReachesNobody | src/client.rs:688-730 | A response to a returned call changes nothing |
| ClientCalls.ChannelNeverCloses | src/client.rs:557-583 | A waiting call always has a live sender or a letter |
| ClientCalls.PendingAfterDrainIsUnwritten | src/client.rs:732-756 | After the drain a pending id belongs to a call that has not written and whose write cannot succeed |
| ClientCalls.NoEventDelaysACall | src/client.rs:520-600 | No event of any thread moves a call further from returning |
| ClientCalls.NoStrandedCaller | src/client.rs:538-600 | Once the reader is gone, in every interleaving, a call that has taken the at most four steps its phase leaves it has returned, and until then it has one to take other than giving up |
| ClientCalls.ReaderFinishes | src/client.rs:732-756 | In every interleaving after a read error, two steps of the reader drain the map, one per waiter and one more end it, and until then the reader has a step to take |
| ClientCalls.SharedClient.constructor | src/client.rs:85-87 | A new client has issued no id and waits for nothing |
| ClientCalls.SharedClient.BeginAndInsert | src/client.rs:531-546 | Allocating an id and publishing its sender are two steps of the machine |
| ClientCalls.SharedClient.RemovePending | src/client.rs:596-600 | A failed or expired call leaves no entry |
| ClientCalls.SharedClient.DispatchResponse | src/client.rs:688-730 | A response is taken out of the map and handed to its call, or dropped when nobody waits |
| ClientCalls.SharedClient.FailAllPending | src/client.rs:732-756 | Writer first, then the whole map: every waiter is told once, nobody else is, and the whole is a run of reader events |
| BatchCalls.WorkerCount | src/client.rs:837-847 | No worker exactly for an empty batch, and never more than requests or the cap |
| BatchCalls.StepKeepsInv | src/client.rs:388-408 | Every step keeps each index in the queue, in one worker's hands or in its slot |
| BatchCalls.BatchAnswersEveryRequest | src/client.rs:355-440 | In every interleaving each request is taken once, in order, and slot i holds what the one call made with request i gave |
| BatchCalls.BatchTerminates | src/client.rs:388-408 | Every event brings the batch closer to the join |
| BatchCalls.BatchNeverSticks | src/client.rs:388-408 | Until the join some event is possible |
| BatchCalls.SharedBatch.PopFront | src/client.rs:389-399 | Workers take the front of the shared queue |
| BatchCalls.SharedBatch.Work | src/client.rs:388-408 | One worker alone answers all that is queued and touches no other slot |
| Peers.ListedIffAddressed | src/peer.rs:546-577 | A peer lists a key exactly when the key addresses it |
| Peers.MovedKeyLeavesOldOwner | src/peer.rs:515-537 | A moved key is looked up at its new owner, listed last there and nowhere else; other keys keep owner and place |
| Peers.AttachRefines | src/peer.rs:515-537 | Updating the two alias maps is attaching in the list |
| Peers.RemoveRefines | src/peer.rs:606-626 | Purging by the reverse index is deleting the peer from the list |
| Peers.PeerRegistry.constructor | src/peer.rs:415-428 | An empty table refines the empty list |
| Peers.PeerRegistry.Insert | src/peer.rs:589-598 | Inserting a peer moves no alias |
| Peers.PeerRegistry.AttachAlias | src/peer.rs:515-537 | An alias is attached exactly for a known peer, and refinement is kept |
| Peers.PeerRegistry.RetainOthers | src/peer.rs:528-532 | Dropping one key keeps the order of the others |
| Peers.PeerRegistry.GetBy | src/peer.rs:546-554 | Lookup by key is lookup in the list, and a listed key always finds its peer |
| Peers.PeerRegistry.AliasesFor | src/peer.rs:571-577 | The aliases of a peer are the ordered filter of the list |
| Peers.PeerRegistry.KeyFor | src/peer.rs:561-566 | The primary key is the peer's earliest remaining alias |
| Peers.PeerRegistry.Remove | src/peer.rs:606-626 | Removal returns the handle and deletes the peer and exactly its aliases |
| Peers.PeerRegistry.PurgeAliases | src/peer.rs:611-623 | A listed key is deleted only where it still addresses the peer |
| Routing.ResolvedMountTakesThePath | src/server.rs:762-802 | Matching and pointer mapping accept the same paths, and the pointer put back behind the prefix is the path |
| Routing.MountCoversBySegments | src/server.rs:762-802 | A mount covers a path exactly when its segments are the first segments of the path, or it is mounted at the root |
| Routing.FirstMatchIsFirst | src/server.rs:1744-1749 | The mount found is the first registered of those that cover the path, and none is found exactly when none covers it |
| Routing.TrailingSlashIsNoMatter | src/registry.rs:399-415 | A registry mount means the same with and without a trailing slash |
| Routing.NormalizedMount | src/registry.rs:399-415 | The leading slash is optional, normalizing twice is normalizing once, a normalized prefix is empty or absolute without a trailing slash, and every such prefix is its own normal form |
| Routing.RootIsMountUnlessTrailingSlash | src/server.rs:1945-1952 | A struct root is kept as it is behind its leading slash, so it is normalized as a registry mount is exactly when the prefix is a spelling of the root or does not end in a slash |
| Routing.NextIsOnion | src/server.rs:159-175 | Running the continuations from the first middleware inwards answers as the chain built from the handler outwards |
| Routing.ResolvedAnswersAsChain | src/server.rs:1740-1753 | A served path resolves to a handler that, for each of the three entries, answers as the chain run once around the route or around mount-then-fallback, with the context the request came with |
| Routing.ResolvesIffServed | src/server.rs:1740-1753 | A path resolves exactly when it is a route, some mount covers it or there is a fallback |
| Routing.FallbackAnswersIffMethodNotFound | src/server.rs:844-862 | With fall-through on, the fallback answers under a mount if and only if the mount's own reply, framed, carries error code 6; otherwise the mount's own reply stands |
| Routing.PipelineRunsOnce | src/server.rs:821-862 | The middlewares that run are the registered ones in order, each once, up to the first that answers, also when a mount falls through |
| Routing.ResolvedMode | src/server.rs:877-886 | A resolved handler leaves the reader exactly when the route, the covering mount or a fallback it may fall through to asks for it; middleware never moves it |
| Routing.OffReaderIffAsked | src/server.rs:877-886 | Any composition leaves the reader exactly when some part of it asks to |
| RouterTable.Router.constructor | src/server.rs:1057-1066 | A new router has nothing registered |
| RouterTable.Router.MountDispatched | src/server.rs:1075-1084 | A mount is composed with the raw fallback exactly when fall-through is on and a fallback exists, then wrapped once |
| RouterTable.Router.Rebuilt | src/server.rs:1091-1105 | A rebuilt list keeps prefixes, handlers and order, and every slot is fresh |
| RouterTable.Router.RebuildMountDispatch | src/server.rs:1091-1105 | Rebuilding changes nothing that was registered |
| RouterTable.Router.InsertRoute | src/server.rs:1113-1118 | The last route for a path wins, and no slot is stale |
| RouterTable.Router.RegisterFallback | src/server.rs:1215-1226 | A new fallback reaches every mount |
| RouterTable.Router.RegisterFallbackBlocking | src/server.rs:1244-1246 | The same for a fallback that leaves the reader |
| RouterTable.Router.SetMountFallthrough | src/server.rs:1372-1378 | Flipping the mode reaches every mount, and the early return leaves none stale |
| RouterTable.Router.RewrapRoutes | src/server.rs:1410-1428 | Rewrapping changes nothing that was registered and leaves no route or fallback stale |
| RouterTable.Router.RegisterMiddleware | src/server.rs:1399-1433 | A new middleware reaches every route, mount and fallback |
| RouterTable.Router.RegisterRegistry | src/server.rs:1705-1725 | A registry mount is appended under its normalized prefix, composed with what is current |
| RouterTable.Router.RegisterStruct | src/server.rs:1619-1641 | The same for a struct mount and its root |
| RouterTable.Router.FindMount | src/server.rs:1744-1749 | The scan returns the prebuilt slot of the first covering mount |
| RouterTable.Router.SlotIsComposedOnDemand | src/server.rs:1740-1753 | Every prebuilt slot is the handler that composing from the current registrations gives |
| RouterTable.Router.Lookup | src/server.rs:1740-1753 | The lookup reads a prebuilt slot, and it is the handler composed on demand |
| RouterTable.Router.Register | src/server.rs:1113-1118 | Any registration keeps every slot fresh and changes the registered part it names |
| RouterTable.Router.RegisterAll | src/server.rs:1091-1118 | A router taken through a sequence of registrations holds what the sequence says, with no slot stale |
| RouterTable.BuiltReadsOff | src/server.rs:1113-1118 | What a sequence of registrations builds, read off as last route per path, mount and middleware order, last fallback and flag |
| RouterTable.OrderDoesNotMatter | src/server.rs:1070-1105 | Two routers taken through sequences that agree on those hold the same prebuilt handler for every path |
| RouterTable.BuildTwoAndLookup | src/server.rs:1070-1105 | Building both in place and asking both gives one answer |
| RouterTable.IndependentRegistrationsCommute | src/server.rs:1070-1105 | Two routers that took neighbouring registrations of different parts, or of different paths, in either order hold the same prebuilt handlers |
| Dispatch.FramingsAgreeIffLengthsMatch | src/message.rs:1308-1335 | For every response and query, stamping then serializing gives the octets of the borrowing writer exactly when the handler's lengths match its parts |
| Dispatch.ErrorsFrameAlike | src/message.rs:1225-1237 | Owned and borrowed error responses frame alike |
| Dispatch.TypedPathsAgree | src/server.rs:359-439 | For every typed handler and request, on success, handler error, bad format and decode error, all three paths emit the same octets or all nothing |
| Dispatch.CustomPathsAgreeIffLengthsMatch | src/server_request.rs:128-166 | For any other handler the paths agree exactly when it fails or its lengths match |
| Dispatch.EchoedFrameParses | src/server_request.rs:114-123 | A borrowed response frame parses to the response's own header and body with lengths that match, and the echoed query |
| Dispatch.TypedResponseCorrelates | src/server.rs:359-439 | Every typed answer parses back as a version 1 response with the request's own id and query, and with the code, body and formats of what happened, for each body format and each failure |
| Dispatch.ResultDecodesUnlessRaw | src/message.rs:1408-1434 | With codecs that read back what they write, a result reaches a typed receiver in every format but raw binary |
| Dispatch.WriteViewResponse | src/server_request.rs:114-123 | The sink receives exactly the echoed frame |
| Serving.TypedLeafIsFaithful | src/server.rs:413-439 | A typed handler is the same on the wire through either entry, for every request and context |
| Serving.CopyingIsFaithfulIffRepliesMatch | src/server.rs:107-114 | A handler with the default borrowing entry, as mounts and context-aware handlers have, is so exactly when its replies have matching lengths |
| Serving.BuiltRepliesAreFaithful | src/server.rs:107-114 | So a mount that builds its replies with the message builder is |
| Serving.FallthroughIsFaithful | src/server.rs:844-875 | Mount and fallback decide alike on both paths, so composing keeps that |
| Serving.CarriersAgree | src/server_request.rs:88-104 | Without middleware a server of such handlers emits the same octets for every request on all carriers, refusals included, and nothing exactly for a notify |
| Serving.CarriersUnderMiddleware | src/websocket_server.rs:1497-1535 | Under middleware the carriers agree exactly when the reply is unwanted, an error, or has matching lengths |
| Serving.CallInto | src/server.rs:1806-1839 | One frame in, read back off the octets that come out: an unreadable frame gets an id-0 error with its code and text, a notify nothing; any other request its own id and query with code 1 for a foreign version, else code 3 for a query that is no JSON pointer or no text, else code 6 for a path nothing serves, else the reply of the chain around what serves the path |
| Serving.EmittedFrameAnswers | src/server_request.rs:34-104 | The same for the frame of any caller, with the calling peer in the context the handlers see |
| JsonPointer.SplitJoin | src/json_pointer.rs:20-28 | Splitting at slashes and joining again is the identity, and no piece holds a slash |
| JsonPointer.JoinSplit | src/json_pointer.rs:104-114 | Joining slash-free pieces and splitting again is the identity |
| JsonPointer.EscapeTokenIsEscape | src/json_pointer.rs:71-76 | Replacing tildes and then slashes is escaping octet by octet |
| JsonPointer.UnescapeEscape | src/json_pointer.rs:49-76 | Every token survives escaping, and its escape holds no slash |
| JsonPointer.EscapeUnescape | src/json_pointer.rs:49-76 | Every unescapable token is the escape of what it unescapes to |
| JsonPointer.CanonicalOfParse | src/json_pointer.rs:98-114 | `canonical(parse(p))` is p exactly when p is not empty |
| JsonPointer.ParseOfCanonical | src/json_pointer.rs:98-114 | `parse(canonical(ts))` is ts for every token list but the single empty token, which reads as the root |
| JsonPointer.ParseInjective | src/json_pointer.rs:20-39 | Pointers with equal tokens are equal up to the spelling of the root |
| JsonPointer.ParsesTheGrammar | src/json_pointer.rs:20-67 | `parse` reads exactly the grammar of RFC 6901, sections 3 and 4: the tokens a text writes with a slash before each, `~0` for a tilde and `~1` for a slash, and nothing when it writes none |
| JsonPointer.ValidatesIffParses | src/json_pointer.rs:84-98 | Validation accepts exactly what parsing accepts |
| JsonPointer.UnescapeToken | src/json_pointer.rs:49-67 | The in-order walk computes the unescaping, or refuses |
| JsonPointer.ValidateEscapes | src/json_pointer.rs:84-98 | The scan succeeds exactly when the pointer parses |
| JsonPointer.BuildCanonical | src/json_pointer.rs:104-114 | The growing buffer ends as the canonical pointer |
| Segments.SplitterAgreesWithParse | src/server.rs:2118-2161 | The splitter gives `parse`'s tokens and refusals exactly for the empty pointer, pointers with a tilde, and absolute pointers other than `/`; that one is a single empty token, and a relative pointer is split as if absolute |
| Segments.WithSegments | src/server.rs:2118-2161 | The 16-slot buffer with its spill list passes the segments at any depth |
| Functions.SameKeyIffSameTokens | src/registry.rs:382-390 | Two pointers share a key exactly when they parse to the same tokens |
| Functions.RegistersWhatItWrites | src/registry.rs:237-258 | A path registers under exactly the tokens it writes, with or without its leading slash, and the root never registers |
| Functions.RegistrationAnswersAs | src/registry.rs:237-258 | Inserting by string keeps the table one keyed by token lists |
| Functions.Registry.constructor | src/registry.rs:237-258 | An empty table |
| Functions.Registry.RegisterFunction | src/registry.rs:237-258 | The last registration of a token list wins; the root and malformed paths are refused |
| Functions.Registry.IsFunction | src/registry.rs:267-272 | True exactly for a pointer whose tokens are registered |
| Functions.Registry.Resolve | src/registry.rs:285-305 | The function registered for the pointer's tokens, or the error for a malformed or an unknown pointer |
| Rest.DecodesExactlyTheEncodings | src/rest.rs:701-725 | Percent-decoding inverts every percent-encoding of every text, with digits of either case anywhere in it, and accepts nothing else |
| Rest.NibbleReadsDigits | src/rest.rs:727-734 | A digit has the value of its place in `0123456789abcdef` or in `0123456789ABCDEF`, and nothing else is a digit |
| Rest.RefusalsSayWhy | src/rest.rs:701-725 | Each of the three refusals is given exactly when it is true: after a well-encoded part, an escape cut off by the end; after one, an escape that is not two digits; a well-encoded whole that is not text |
| Rest.EncodedDecodes | src/rest.rs:701-734 | A text encoded in either case decodes to itself |
| Rest.PathRefusals | src/rest.rs:676-699 | A path is refused exactly for not being absolute, or with the error of its first segment that does not decode |
| Rest.EncodeRoundTrips | src/rest.rs:701-734 | Any text can be put into a path segment without a slash |
| Rest.PointerHoldsDecodedSegments | src/rest.rs:676-699 | Every produced pointer is valid and, except for `//`, parses to the decoded segments one token each |
| Rest.TrailingSlashIsDropped | src/rest.rs:680-686 | Adding a trailing slash changes nothing if and only if the path did not end in one already or is refused anyway |
| Rest.SecondSlashAddsAToken | src/rest.rs:680-686 | A slash after a trailing slash adds an empty token |
| Rest.TokensTravelByPath | src/rest.rs:676-699 | Tokens encoded in either case and joined by a client reach exactly their pointer if and only if the last is not empty |
| Rest.DecodeSegment | src/rest.rs:701-725 | The index loop computes the decoding and each error |
| Rest.MapPath | src/rest.rs:676-699 | The segment loop computes the mapping and stops at the first bad segment |
| Headers.FieldsRoundTrip | src/header.rs:28-130 | Every field of every header survives the wire |
| Headers.EncodeInjective | src/header.rs:28-55 | Different headers have different octets |
| Headers.HeaderLayout | src/header.rs:28-55 | Each field sits at its own offset, least significant octet first |
| Headers.EncodeOfFields | src/header.rs:28-130 | Re-encoding what was read gives the octets that were read |
| Headers.DecodeOfEncode | src/header.rs:57-130 | A header decodes to itself when its magic is right, its total is addressable and its length is that total; otherwise the first of the three that fails is reported with what was found |
| Headers.DecodedTotalIsSafe | src/header.rs:57-130 | A decoded total overflows nothing, and both slices run forwards inside it |
| Headers.EncodeHeader | src/header.rs:28-55 | The advancing cursor writes exactly the encoding |
| Headers.DecodeHeader | src/header.rs:57-130 | The advancing cursor reads the fields and reports the first failed check |
| Messages.NewChecksLengths | src/message.rs:15-34 | A message is made exactly of parts with the lengths its header announces; otherwise both totals are reported, the announced one saturating |
| Messages.OwnedParseIsViewParse | src/message.rs:131-148 | The parser that copies parts off a cursor and checks them again agrees with the borrowing one on every buffer, errors included |
| Messages.ParseOfFrame | src/message.rs:131-148 | A frame parses back exactly when the message is well formed, whatever follows |
| Messages.ExactParseOfFrame | src/message.rs:150-160 | The exact parser accepts a frame and nothing after it |
| Messages.BadHeaderIsReported | src/message.rs:131-160 | A bad header is reported with its own error, whatever follows |
| Messages.WrongLengthIsReported | src/message.rs:131-160 | A frame cut anywhere, or followed by anything, is refused with the two lengths that disagree |
| Messages.FrameOfParse | src/message.rs:150-160 | What the exact parser accepts is well formed and frames to the same octets |
| Messages.CopyWithin | src/message.rs:92-129 | The overlapping shift copies the original octets |
| Messages.IntoWireBytes | src/message.rs:92-129 | In place or in a fresh buffer, for every header, query, body and capacity, the result is the plain serialization; the allocation is reused exactly when it is large enough |
| Io.FramesThenRest | src/io.rs:6-19 | What follows well-formed frames cannot change how they are read |
| Io.TruncatedFrameIsEof | src/io.rs:6-19 | A stream that ends anywhere inside a frame is an unexpected end |
| Io.BadHeaderStopsReading | src/io.rs:6-19 | A bad header ends reading with its own error |
| Io.ReadAllSplitsTheStream | src/io.rs:6-19 | For every stream, the frames of the messages read followed by what is left are the stream, and what is left starts with no whole frame |
| Io.FramesDelimitThemselves | src/io.rs:6-54 | Reading concatenated frames gives the messages back and leaves no octet |
| Io.FrameInBufferParses | src/io.rs:32-41 | The buffer filled in place parses, borrowed, to the message the copying reader returns |
| Io.Source.ReadExact | src/io.rs:219-231 | Under any pattern of short reads the buffer is filled with the next octets, or the end of the stream is reported |
| Io.Source.ReadMessage | src/io.rs:6-19 | Under any pattern of short reads the first frame, with the rest left in the stream |
| Io.Source.ReadMessageInto | src/io.rs:32-41 | The same octets in one buffer grown in two steps |
| Io.Source.ReadMessages | src/io.rs:6-19 | A read loop returns every message up to the first failure and how many octets they took |
| Io.Sink.WriteMessage | src/io.rs:44-54 | Three writes put the serialization on the stream |
| Io.Sink.WriteStreaming | src/io.rs:116-137 | The frame written has its lengths taken from its parts, whatever the given header said |

## Left out

- Sockets, accept loops, TLS, thread spawning and the async and wasm clients: transport plumbing around the modelled core.
- Real time: a timeout or a deadline is an event that may happen at any point of a wait, and the idle watchdog is not modelled.
- Integer width of stream offsets: sums of offsets are unbounded naturals; the 64-bit sums of the wire format are modelled with their limits.
- Request ids: the 64-bit counter of the client does not wrap.
- Lock poisoning, panics and the drop of a client or a connection while calls run.
- Structio JSON and BEVE codecs, UTF-8 decoding and the wording of error texts: functions given as parameters.
- Input and output errors other than the end of a stream; a sink never fails.
- The calling context beyond path and peer, cancellation signals, and the off-reader limit with its `ResourceExhausted` answer.
- Handlers and middleware are functions of their input, so a middleware that keeps state between requests is not modelled.
- Raw pointers, plugins, the C interface, fleets, the UDP client, REST content negotiation and entity tags.
- The `RepeStruct` derive and its lock flavours: a mounted struct is an arbitrary handler.
- Peer handles and registered functions: opaque identifiers.
- Transfer.TransferControl.WaitForCredit: other threads act only while the waiter sleeps, in the order given by a parameter; Wakeups has the free interleaving.
- Transfer.TransferControl.WaitForReconnect: the same.
- ClientCalls.SharedClient.FailAllPending: runs without interleaved callers; the machine in the same module interleaves its steps freely.
- ClientCalls.CallReturnsWhatHappened: a server error carries the whole response; how its code and text are read out of it is not modelled.
- BatchCalls.SharedBatch.Work: one worker alone; the machine in the same module has any number.
- Delivery.DeliveryIsExactlyOnce: what is sent to a peer other than the one the receiver is connected through fails as on a dead connection; a resume follows a loss of the connection and carries the receiver's true file number and offset; the receiver tells the end of a file by the mark on its last chunk, which the producer sets.
- Stranding.NeverLeftBehindIffWaitsAndLooks: only for policies under which what the receiver has is exact; the producer learns at once that a file is complete, and that a file completed while it was parked.
- Serving.CarriersUnderMiddleware: compares the owned and the borrowing carrier under one calling context, as the TCP servers pass no peer.
- Serving.CarriersAgree: the same.
