# OpenLive verification

A Dafny model of the live-session core of OpenLive and of the audio machinery around it, with proofs
of what the code promises over whole runs. `dafny verify dfyconfig.toml` checks everything.

Code that changes state in place is a class or an array method here as well; each method is proved
against a function on values, and the theorems are about those functions.

## What is modelled

**The live session.** `Protocol` is the wire vocabulary. `AnswerLease` decides which generation may
speak, `TaskLedger` holds the tasks, the evidence index and the resume buffer, and `Session` gives
the effect of every client event, audio frame and provider emission on one state, keeping everything
written to either channel in a log. `Coordinator` is the same machine in its own imperative form;
`RunSession` ties the two together. `WireInvariant`, `LedgerInvariant`, `BufferInvariant` and
`SessionInvariant` say what stays true, `SessionSteps` that every step keeps it, and
`SessionTheorems` and `SessionLeases` what follows for every run. `Egress` says which kinds of
messages each step may write. On it rest the laws that speak of the two channels and the ledger alone,
without the functions that give the effects: `Commits` (what the provider is told of a response),
`SessionLaws` (what each client event and decision brings), `Gate` (which text, audio and latency marks
get out), `Resolutions` (which tasks are resolved, how and when), `Evidence` (what becomes evidence and
is announced) and `Retention` (how long the resume buffer keeps what was sent). `Stall` is about a user
turn opened over an active generation. `Chronos` is the interaction engine, `Hearing` what it
takes for speech in the signals themselves, and `LiveSession` the session with that engine answering
it. `ClientLedger` is the browser's ledger, `Receipts` what it shows against what was received,
`ClientReading` its sequence check, and `Resume` proves what resuming does to the ledger.

**Audio.** `Complex` and `Fft` are the radix-2 transform and its inverse, `Tone` says which way it
turns, `Denoise` is one frame through the noise suppressor, `NoiseRule` what its rule does to quiet and
loud bins, `DenoiseRing` the one-frame delay around any suppressor, and `Suppression` the
two together. `Playback` and `PlaybackTheorems` are the playback worklet, `Fading` the samples it hands
out against those that were enqueued, `Concealment` what it makes of the gap after a cancel,
`FrameCount` the worklet and the main thread over their two message ports, and `Ports` what crosses
them. `EchoRing` is the echo reference ring,
`Nlms` the echo canceller, `Endpointing` the endpointing tracker.

**The edges.** `Bytes`, `MediaCodec` and `BrowserCodec` are the media packet in Rust and in
JavaScript. `Hybrid` is the router and the fan-in of the hybrid provider.

What the surroundings decide is left open: the clock, the order in which a hash table is walked, the
verdict of the safety gate, whether a queue has room, and outside `LiveSession` the decisions of the
interaction engine. They are fields of each input (`Oracle`, `Stimulus`), and every theorem is for all
of them. UUIDs drawn by
the gateway are a counter; ids that come from outside are arbitrary. Times are arguments. Floating
point is exact reals.

## What the proofs brought out

- Over one connection every copy that a resume replays is refused by the browser's own sequence
  check: a client that reads everything in order meets a sequence regression if and only if some
  resume asked from a cursor with a live ledger entry above it (`ConnectionAccepted`). A client that
  asks while an outcome is in flight is such a one (`OwedIsInFlight`, `InFlightResumeTrips`). The
  browser the gateway ships asks only when a new connection has just been announced
  (`apps/openlive-gateway/web/app.js:1734`), before any task can be asked for; then nothing is ever
  owed, every replay is empty, and the check never throws (`ShippedBrowserAccepts`). The check comes
  before anything is applied, so no copy ever reaches the ledger (`CopiesNeverReachLedger`), and none
  is missed there: the original came first. A client that had lost messages and asked from a
  cursor beyond what it saw would miss exactly what lies between (`SkippingClientCompletes`). The
  ledger is safe under copies as well, should they ever reach it (`ResumeIsInvisible`).
- The coordinator has no guard against a `Listen` decision over an active generation: it clears the
  lease but not the generation. A run is stalled if and only if that happened and nothing has
  cancelled since (`StalledExactly`, with a run in `ListenStalls`); then nothing of that generation is
  accepted, its completion included, and no response starts (`UserTurnStallsGeneration`), until a
  barge-in, a yield or the end of the session (`StallEndsExactly`). The engine the gateway is shipped
  with never makes that decision, so no session with it ever stalls (`LiveSession.NeverStalls`).
- When the fade of a cancelled generation ends, the worklet forgets that the generation is over. With
  nothing else queued the next audio callback that finds nothing left conceals the "gap" from its
  history if and only if the fade is no longer than what is left of the playing frame and more than 32
  samples are remembered by then; when the frame ends first it is reported as played, then idle, and
  nothing is concealed. When nothing is playing, the next callback conceals if and only if playback is
  started (or the jitter controller would start it on the count alone), the generation heard last is
  the cancelled one or not marked as over, and more than 32 samples are remembered; a stopped worklet
  stays as it is (`CanceledStillConceals`, with runs for three cases: `LongFrameConceals`,
  `CancelBetweenFramesConceals`, `CancelAfterStopIsSilent`). Providers that send 20 ms frames
  (`crates/openlive-provider/src/moshi.rs:42`, `openai_compatible.rs:29`) meet fades of 35 ms, so the
  frame ends first there; a provider whose frames are as long as its deltas
  (`openai_realtime.rs:379-383`) can meet the other case, and any provider a cancel that falls
  between two frames of a stream that has run empty but not stopped.
- The worklet conceals one gap and then no other until the next cancel: a burst books three times its
  length, only playing it takes that down, and the next one waits for zero (`ConcealsOnce`). The comment
  beside it speaks of bursts up to about 60 ms (`apps/openlive-gateway/web/audio-playback-worklet.js:265`).
- Cancelling again a generation that is still remembered as cancelled does not renew its place among
  the 256; a late packet is ignored for the next 255 cancels when its generation was not remembered
  before (`LatePacketIsIgnored`).
- An engine whose lower threshold reaches the upper one of its sensitivity takes faint sound for speech;
  a listening engine hears nothing in what is unheard if and only if it does not (`SaneExactly`).
- An empty playback frame takes one sample off the count for nothing: the count stays exact after it
  if and only if it was zero (`EmptyFrameMiscounts`, with a run in `EmptyFrameRun`). Frames that come
  over the WebSocket are dropped when empty (`apps/openlive-gateway/web/app.js:2052`); those of the
  WebRTC channel are not (`app.js:1216-1228`).
- `latestFrame` of the echo ring starts at 0. Reads are the far-end stream if and only if the stream
  reaches frame 0 or starts within one ring's length of it (`FaithfulExactly`).
- The suppressor's scale of 2/n returns the windowed frame at twice its size when every gain is 1
  (`UnitGainsDouble`). The gains of its rule approach 1 and never reach it, so in itself the rule
  amplifies nothing (`NeverAmplifies`).
- A packet survives encoding and decoding exactly when its payload is not empty, its metadata is in
  range, its generation is not the nil UUID and its meters are finite (`RoundTripExactly`).
- The first frame through the noise suppressor is heard twice, dry and then cleaned
  (`FirstFrameTwice`).
- `link_evidence` compares whole records, confidence included, where its comment speaks of a triple;
  the model follows the code. In the session both are the same, because the confidence is always 1.

## Model

| member | source | states |
|---|---|---|
| AnswerLease.AnswerLeaseManager.BeginUserTurn | crates/openlive-runtime/src/lease.rs:32-39 | a user turn opens once: the version goes up (saturating) only if none was open, and the lease is gone |
| AnswerLease.AnswerLeaseManager.Issue | crates/openlive-runtime/src/lease.rs:41-55 | the lease names the next sequence under the current version and closes the turn |
| AnswerLease.AnswerLeaseManager.Revoke | crates/openlive-runtime/src/lease.rs:57-65 | only the lease of that generation is withdrawn |
| AnswerLease.LeaseNameInjective | crates/openlive-runtime/src/lease.rs:41-55 | the name hashed into a lease id determines both of its counters |
| AnswerLease.IssuedAreNumbered | crates/openlive-runtime/src/lease.rs:32-65 | below saturation, every lease issued along a run is named with a version and a sequence between those before and after the run |
| AnswerLease.LeasesAreDistinct | crates/openlive-runtime/src/lease.rs:41-55 | below saturation no two leases of a run share the name that is hashed, and a later lease never has a smaller version |
| AnswerLease.VersionsTellTurns | crates/openlive-runtime/src/lease.rs:32-55 | below saturation, the version of a lease is still the current one exactly while no user turn has been opened since it was issued |
| AnswerLease.AcceptedUntil | crates/openlive-runtime/src/lease.rs:32-72 | a leased generation is accepted, until another is leased, exactly while no user turn is opened and it is not withdrawn |
| SessionLeases.LeaseIsAfterOps | apps/openlive-gateway/src/session.rs:672-786 | the lease state of every session is that of a fresh lease manager after the operations the session performed, decision by decision |
| SessionLeases.SessionLeasesDistinct | apps/openlive-gateway/src/session.rs:672-786 | below saturation no two leases a session issues share a name, versions never go back, and the lease held is the last one issued |
| TaskLedger.TaskOrchestrator.Admit | apps/openlive-gateway/src/session_state.rs:317-366 | intents of white space only and known ids are refused without effect; otherwise the record, deadline and acknowledgement are as promised |
| TaskLedger.TaskOrchestrator.BindPendingToGeneration | apps/openlive-gateway/src/session_state.rs:372-381 | every unbound task gets the generation, no bound one changes, and exactly the former are reported |
| TaskLedger.TaskOrchestrator.AttachEvidence | apps/openlive-gateway/src/session_state.rs:386-401 | evidence enters an active task's bucket at most once; the answer says whether it did |
| TaskLedger.TaskOrchestrator.LinkEvidence | apps/openlive-gateway/src/session_state.rs:407-424 | a new link enters both indexes, an identical one neither |
| TaskLedger.TaskOrchestrator.TaskIdsForGeneration | apps/openlive-gateway/src/session_state.rs:470-476 | exactly the active tasks bound to the generation, each once |
| TaskLedger.TaskOrchestrator.ExpireDeadlines | apps/openlive-gateway/src/session_state.rs:483-513 | exactly the elapsed tasks move to completed as failures, with one outcome each that cites their evidence |
| TaskLedger.TaskOrchestrator.CancelTask | apps/openlive-gateway/src/session_state.rs:518-537 | an active task is resolved as cancelled with its outcome; for any other id nothing happens |
| TaskLedger.TaskOrchestrator.CompleteTasksForGeneration | apps/openlive-gateway/src/session_state.rs:544-587 | exactly the tasks bound to the generation succeed, with one outcome each |
| TaskLedger.TaskOrchestrator.BufferOutbound | apps/openlive-gateway/src/session_state.rs:611-628 | an envelope enters both buffer indexes unless its event id is there already |
| TaskLedger.TaskOrchestrator.ScanAbove | apps/openlive-gateway/src/session_state.rs:643-659 | walking the ordered index above a cursor splits it into live envelopes and expired sequences, both ascending |
| TaskLedger.TaskOrchestrator.ReplayAfter | apps/openlive-gateway/src/session_state.rs:643-667 | the live envelopes above the cursor are returned in ascending order and the expired ones leave both indexes |
| TaskLedger.ResolvedMovesTask | apps/openlive-gateway/src/session_state.rs:491-512 | a listed active task ends up completed with the given result and its binding on record |
| TaskLedger.ResolvedKeepsTask | apps/openlive-gateway/src/session_state.rs:491-512 | resolving a batch leaves every other task as it was |
| Coordinator.SessionCoordinator.SendAndBuffer | apps/openlive-gateway/src/session.rs:1024-1054 | the envelope is buffered under its own sequence and id and then sent |
| Coordinator.SessionCoordinator.EmitPendingOutcomes | apps/openlive-gateway/src/session.rs:433-448 | one buffered ledger entry per outcome, in order |
| Coordinator.SessionCoordinator.EmitEvidenceLink | apps/openlive-gateway/src/session.rs:454-463 | a new link is recorded and announced, a known one neither |
| Coordinator.SessionCoordinator.AttachEvidenceToGeneration | apps/openlive-gateway/src/session.rs:503-537 | classified evidence reaches exactly the tasks bound to the generation, each with its link |
| Coordinator.SessionCoordinator.StartResponse | apps/openlive-gateway/src/session.rs:687-749 | nothing if a generation is active; otherwise a new one is leased, takes over pending tasks and is committed |
| Coordinator.SessionCoordinator.CancelResponse | apps/openlive-gateway/src/session.rs:751-786 | the active generation is given up, its lease withdrawn, the provider told, and on a hard yield the client too |
| Coordinator.SessionCoordinator.ApplyDecisions | apps/openlive-gateway/src/session.rs:648-670 | each decision is sent, tagged with the active generation when it yields, and then acted on |
| Coordinator.SessionCoordinator.HandleTaskRequested | apps/openlive-gateway/src/session.rs:297-334 | a refused request gets an error, an admitted one a buffered acknowledgement |
| Coordinator.SessionCoordinator.HandleTaskCancel | apps/openlive-gateway/src/session.rs:339-364 | an active task is cancelled and reported once; otherwise silence |
| Coordinator.SessionCoordinator.HandleSessionResume | apps/openlive-gateway/src/session.rs:393-426 | the replay above the cursor is sent followed by a Pong, or a mismatch error |
| Coordinator.SessionCoordinator.HandleAudioFrame | apps/openlive-gateway/src/session.rs:565-646 | the frame goes to the provider, two envelopes are numbered whether published or not, and decisions follow |
| Coordinator.SessionCoordinator.ApplySafetyToEvent | apps/openlive-gateway/src/session.rs:1060-1147 | text goes out as the gate's verdict allows; an intervention also cancels with the provider |
| Coordinator.SessionCoordinator.HandleProviderEmission | apps/openlive-gateway/src/session.rs:788-898 | only emissions of the leased active generation have an effect |
| Coordinator.SessionCoordinator.HandleAccepted | apps/openlive-gateway/src/session.rs:811-898 | marks, deadlines, the event or audio, evidence and on completion the outcomes, in this order |
| Coordinator.SessionCoordinator.Shut | apps/openlive-gateway/src/session.rs:900-910 | the active generation is cancelled with the provider and the provider closed |
| Coordinator.RunSession | apps/openlive-gateway/src/session.rs:1216-1298 | the imperative session reaches, for every input sequence, the state of the step functions on the same inputs, up to the three orders in which hash tables were walked |
| SessionSteps.StepOk | apps/openlive-gateway/src/session.rs:135-189 | every step keeps the whole invariant and only extends what was sent |
| SessionTheorems.NoZombieOutput | apps/openlive-gateway/src/session.rs:751-815 | once a drawn generation is not active, nothing sent later is tagged with it and it never becomes active again |
| SessionTheorems.CancelledOrCompletedIsSilent | apps/openlive-gateway/src/session.rs:672-898 | after the step that cancels a generation (a barge-in, an engine decision to yield or replan, the end of the session) or completes it, no text, audio, latency mark or cancel of it is ever sent |
| SessionTheorems.LeaseAgrees | apps/openlive-gateway/src/session.rs:672-786 | lease and active generation agree whenever both exist |
| SessionTheorems.CommitsAreClosed | apps/openlive-gateway/src/session.rs:731-786 | between two commits the first generation was cancelled with the provider or its completion accepted; versions never go back |
| SessionTheorems.EveryTaskExactlyOnce | apps/openlive-gateway/src/session.rs:297-448 | admitted ids are active or completed and never both; the wire holds exactly one acknowledgement each and exactly one outcome, with the recorded result, for the completed ones only |
| SessionTheorems.LedgerOnlyGrows | apps/openlive-gateway/src/session_state.rs:372-587 | completed tasks keep result and evidence for good, and a task is resolved under the binding it first got |
| SessionTheorems.EvidenceIsGenuine | apps/openlive-gateway/src/session.rs:503-537 | outcomes cite, without repetition, exactly linked evidence, all of it sent earlier under the bound generation; a success cites that generation's completion, so "no evidence collected" cannot occur |
| SessionTheorems.EvidenceMatchesBuckets | apps/openlive-gateway/src/session_state.rs:386-436 | the evidence of an active task is the union of its buckets, without repetition |
| SessionTheorems.EvidenceIndexesAgree | apps/openlive-gateway/src/session_state.rs:407-450 | a task is listed for a piece of evidence exactly when the evidence is listed for the task, in every reachable state |
| SessionTheorems.WireOrder | apps/openlive-gateway/src/session.rs:994-1054 | below saturation, sequences on the wire other than replays strictly increase and event ids never repeat |
| SessionTheorems.ReplayIsExact | apps/openlive-gateway/src/session_state.rs:643-667 | in every reachable state a replay is the ledger entries sent above the cursor that are neither dropped nor too old, ascending |
| SessionTheorems.BufferIndexesAgree | apps/openlive-gateway/src/session_state.rs:611-667 | the two buffer indexes are inverse to each other in every reachable state |
| SessionTheorems.PurgeIsExact | apps/openlive-gateway/src/session_state.rs:660-665 | a replay drops exactly the expired entries above its cursor, from both indexes |
| Egress.StepAdds | apps/openlive-gateway/src/session.rs:135-910 | every step adds to the two channels only messages of the kinds its stimulus may bring about, and only a request makes a task active |
| Commits.ActiveIsCommitted | apps/openlive-gateway/src/session.rs:687-749 | in every run whose provider still reads, an active generation has been committed to it exactly once, at the time it began and under the version of a lease issued for it |
| Commits.CommitsEnd | apps/openlive-gateway/src/session.rs:731-898 | every committed generation is still active, or was cancelled with the provider, or its completion was accepted |
| SessionLaws.TranscriptBegins | apps/openlive-gateway/src/session.rs:366-388 | a final transcript that asks for a response begins a generation exactly when none is active: new, leased, with every unbound task, marked to the browser and committed to the provider, or else reported as closed |
| SessionLaws.ResponseDecisionBegins | apps/openlive-gateway/src/session.rs:672-749 | after decisions that end with a response a generation is active; a single one begins it |
| SessionLaws.BargeInGivesUp | apps/openlive-gateway/src/session.rs:751-786 | a barge-in gives the active generation up: no floor, no lease, the browser's mark and audio cut-off and the provider's cancellation; with none active nothing happens |
| SessionLaws.YieldDecisionGivesUp | apps/openlive-gateway/src/session.rs:648-786 | so does a decision to yield or replan, announced first, the cut-off exactly for a yield |
| SessionLaws.DecisionsAreAnnounced | apps/openlive-gateway/src/session.rs:648-670 | all decisions on a frame are announced to the browser, in order, and nothing else is |
| SessionLaws.FrameReachesProvider | apps/openlive-gateway/src/session.rs:565-646 | a client frame reaches the provider unless its queue is full, reported drops, closed providers and engine failures are reported, and both observations are published together |
| SessionLaws.PublishingCostsNoNumbers | apps/openlive-gateway/src/session.rs:565-646 | whether the observations on a frame are published changes the log of what was sent and nothing else, numbers and ids included |
| SessionLaws.RequestIsAnswered | apps/openlive-gateway/src/session.rs:297-334 | blank intents and known ids are refused with an error and no effect; any other request makes its task active with the deadline asked for, or the configured span from now, and is acknowledged with it |
| SessionLaws.ResumeIsAnswered | apps/openlive-gateway/src/session.rs:393-426 | a resumption is answered by copies of exactly the ledger entries above its cursor that are still kept, ascending, then a Pong; one of another session by an error |
| SessionLaws.ShutdownCloses | apps/openlive-gateway/src/session.rs:900-910 | the end of the session tells a provider that still reads to cancel what is active and then to close |
| SessionLaws.EndedStays | apps/openlive-gateway/src/session.rs:1216-1298 | nothing happens to a session that has ended |
| Gate.OnlyDueTextIsSaid | apps/openlive-gateway/src/session.rs:1060-1147 | in every run each text sent for a generation answers one event accepted for it then: with the gate on, a delta carries what a verdict releases of a delta, a final text what a verdict intervenes with or releases at the end, or the provider's own when the verdict holds |
| Gate.HeldTextIsSilent | apps/openlive-gateway/src/session.rs:1066-1071 | a delta the gate holds or releases nothing of sends nothing but latency marks and elapsed deadlines and becomes no evidence, and the generation goes on |
| Gate.TextIsSaid | apps/openlive-gateway/src/session.rs:1060-1147 | every other accepted event is answered, and an intervention on a delta, and nothing else, has the provider cancel |
| Gate.OthersAreIgnored | apps/openlive-gateway/src/session.rs:788-810 | events of no generation pass as they are; anything of a generation not leased and active changes nothing |
| Gate.AudioIsSent | apps/openlive-gateway/src/session.rs:860-874 | accepted audio is sent on exactly unless the gate withholds it or the channel is full |
| Gate.MarksAreDue | apps/openlive-gateway/src/session_state.rs:39-71 | an accepted emission brings exactly the latency marks due: each first of a generation once, completion when it comes |
| Resolutions.AcceptedResolves | apps/openlive-gateway/src/session.rs:811-898 | accepting an emission fails every task past its deadline, and only those; of the others its completion makes those of the generation succeed; the rest go on unchanged; each is reported with its reason |
| Resolutions.AcceptedLeavesNoneOverdue | apps/openlive-gateway/src/session_state.rs:483-513 | after an accepted emission at media time t no active task has a deadline at or before t |
| Resolutions.CancelResolves | apps/openlive-gateway/src/session.rs:339-364 | a cancelled active task is resolved and reported at once, and no other task changes |
| Resolutions.OnlyTheseResolve | apps/openlive-gateway/src/session_state.rs:483-587 | nothing else resolves a task, in any reachable state |
| Resolutions.TimeoutsAreDue | apps/openlive-gateway/src/session_state.rs:483-513 | in every run, an outcome that reports an elapsed deadline names the deadline its task was acknowledged with and is sent at a media time at or past it |
| Evidence.EveryLinkIsAnnounced | apps/openlive-gateway/src/session.rs:454-463 | in every reachable state the links in the index are exactly those announced |
| Evidence.SpeechIsEvidence | apps/openlive-gateway/src/session.rs:473-537 | text, progress and images sent for a generation become evidence of their kind for every task of it that is still active, linked and announced |
| Retention.RepeatedExactly | apps/openlive-gateway/src/session_state.rs:611-667 | in every open run, a resumption repeats what a step sent above its cursor if and only if no resumption so far, this one included, with a cursor below it came more than 30 seconds after that step |
| ClientReading.ReadsLog | apps/openlive-gateway/web/app.js:2451-2458 | after reading any log that keeps the wire invariant, the client has last seen the largest number in it, and its check threw for none of it if and only if it holds no replayed copy |
| ClientReading.ConnectionAccepted | apps/openlive-gateway/web/app.js:2451-2458 | reading one connection in order, the check never throws if and only if no resume asked from a cursor with a live ledger entry above it |
| ClientReading.AnswerAccepted | apps/openlive-gateway/src/session.rs:393-426 | a client that has last seen any number at all accepts the whole answer to a resume if and only if it is not ahead of the session and no live ledger entry lies above the cursor among what it has seen; one that asks from what it last saw always does |
| ClientReading.ReaderAcceptsAnswer | apps/openlive-gateway/src/session.rs:393-426 | a client that has read all before accepts the whole answer if and only if no live ledger entry lies above the cursor |
| ClientReading.OwedIsInFlight | apps/openlive-gateway/web/app.js:2797-2803 | resuming from the last seen number is owed something if and only if a live ledger entry was still on its way |
| ClientReading.InFlightResumeTrips | apps/openlive-gateway/src/session.rs:393-426 | a run in which such a resume trips the check |
| ClientReading.ShippedBrowserAccepts | apps/openlive-gateway/web/app.js:1719-1734 | in every run in which no resume comes after a task was asked for, no resume is owed anything and the check never throws |
| Stall.StepPhase | apps/openlive-gateway/src/session.rs:672-786 | every step takes the floor of the session through exactly its begins, openings and ends |
| Stall.StalledExactly | apps/openlive-gateway/src/session.rs:672-690 | a run has an active generation without its lease if and only if a Listen was acted on over a leased active generation and nothing has cancelled since |
| Stall.AcceptedUnlessStalled | apps/openlive-gateway/src/session.rs:799-808 | an active generation is accepted if and only if the session is not stalled |
| Stall.ListenStalls | apps/openlive-gateway/src/session.rs:672-676 | a run that stalls: a response starts and the next frame is answered with Listen |
| Stall.StallEndsExactly | apps/openlive-gateway/src/session.rs:751-786 | the stalled generation is given up by exactly a barge-in, a decision to yield or replan, and the end of the session |
| Stall.UserTurnStallsGeneration | apps/openlive-gateway/src/session.rs:672-690 | until something cancels, a stalled session keeps the generation active, says nothing for any generation and commits no response |
| Chronos.SessionEngine.Process | crates/openlive-runtime/src/lib.rs:488-537 | an observation that goes back in time is refused without effect, any other is decided on |
| Chronos.SessionEngine.Observe | crates/openlive-runtime/src/lib.rs:138-384 | the decision and the floor after one observation, in each of the seven states of the floor |
| Chronos.BargeInIsSustained | crates/openlive-runtime/src/lib.rs:309-361 | in every run the engine yields only after it ducked and every observation since stayed above the off threshold, for at least the time the profile asks, with the default settings never less than 120 ms |
| Chronos.ResponseNeedsPause | crates/openlive-runtime/src/lib.rs:213-286 | in every run the engine starts a response only after a pause as long as the profile tolerates, without speech since it began, and when the turn sounds complete |
| Hearing.UnheardIsIgnored | crates/openlive-runtime/src/lib.rs:559-563 | what is all echo, in another's voice or no louder than the off threshold never brings Listen, SoftDuck, Replan or HardYield; it ends an overlap and begins a pause |
| Hearing.SaneExactly | crates/openlive-runtime/src/lib.rs:398-408 | that takes thresholds in order: for a listening engine it holds if and only if they are |
| Hearing.LoudIsHeard | crates/openlive-runtime/src/lib.rs:192-418 | speech without echo, in the target voice and at the on threshold of the sensitivity is listened to, ducks the assistant, replaces a pending response, and in an overlap yields exactly once that has lasted |
| Hearing.PlainerIsHeard | crates/openlive-runtime/src/lib.rs:559-563 | whatever is taken for the user speaking still is with more speech, a surer voice and less echo |
| Hearing.ResponseHoldsFloor | crates/openlive-runtime/src/lib.rs:119-136 | a response that starts takes the floor, and its completion frees the floor exactly if the assistant still has it for that response |
| Hearing.YieldIsHeard | crates/openlive-runtime/src/lib.rs:309-418 | a yield follows a duck after which everything the engine took was the user's, for as long as the sensitivity asks |
| Hearing.ResponseIsUninterrupted | crates/openlive-runtime/src/lib.rs:213-286 | a response follows a hold after which nothing plain to hear came |
| Hearing.ResponseNeedsTurn | crates/openlive-runtime/src/lib.rs:420-435 | a response is started only to a turn that had lasted the least time a turn must when the pause began |
| Hearing.BackchannelsAreSpaced | crates/openlive-runtime/src/lib.rs:385-396 | any two backchannels of a run are spaced as configured, and each comes when wanted, to an unfinished turn that has gone on long enough |
| LiveSession.LiveIsRun | apps/openlive-gateway/src/session.rs:648-670 | a session answered by the engine is a run of the session, so all that holds of those holds of it |
| LiveSession.NoListenOverActive | crates/openlive-runtime/src/lib.rs:309-361 | while a generation is active the engine only ducks, resumes, yields or says nothing |
| LiveSession.NeverStalls | apps/openlive-gateway/src/session.rs:648-749 | with the engine it is shipped with, whatever its state and settings, a session never stalls: an active generation always holds the lease |
| ClientLedger.ClientOrchestrator.RequestTask | apps/openlive-gateway/web/task-orchestrator.js:86-178 | without a session, or for a blank intent, nothing changes and the answer says which; otherwise the request goes on top of the rail, which is cut to its limit |
| ClientLedger.ClientOrchestrator.ApplyTaskAcknowledged | apps/openlive-gateway/web/task-orchestrator.js:221-253 | only a pending known task is acknowledged, with its latency recorded once |
| ClientLedger.ClientOrchestrator.ApplyTaskOutcome | apps/openlive-gateway/web/task-orchestrator.js:262-296 | a known task is resolved once and listed under each piece of evidence once |
| ClientLedger.ClientOrchestrator.ApplyEvidenceLink | apps/openlive-gateway/web/task-orchestrator.js:305-321 | a link is indexed once and shown on its task |
| ClientLedger.DeliveredIsInert | apps/openlive-gateway/web/task-orchestrator.js:221-321 | a delivered message stays without further effect along any later run, even when requests push entries off the rail |
| ClientLedger.InertRunIsNoOp | apps/openlive-gateway/web/task-orchestrator.js:221-321 | applying such messages again, any number of them, changes nothing |
| Receipts.RailShowsReceived | apps/openlive-gateway/web/task-orchestrator.js:156-321 | in every run each entry was asked for, and shows as acknowledgement, deadline, result, summary and error what was received for it, or is pending and untouched |
| Receipts.OutcomeIsShown | apps/openlive-gateway/web/task-orchestrator.js:262-296 | the first outcome received for a task on the rail is the one shown, and the task is found by everything it cites |
| Receipts.AckIsShown | apps/openlive-gateway/web/task-orchestrator.js:221-253 | an acknowledgement of a pending task is shown and timed from its request |
| Receipts.RailIsLatest | apps/openlive-gateway/web/task-orchestrator.js:474-478 | the rail lists the latest fifty requests, newest first, whatever is delivered |
| Resume.ReplayIsSuffix | apps/openlive-gateway/src/session_state.rs:643-667 | with nothing expired, the replay is what was sent above the cursor, in the order it was sent |
| Resume.ResumeIsInvisible | apps/openlive-gateway/web/task-orchestrator.js:221-321 | a client whose history covers (low, high] is left, times aside, as if it had only been sent what is above high |
| Resume.ResumeEqualsUninterrupted | apps/openlive-gateway/src/session.rs:390-426 | delivery up to a cursor and replay from any cursor at or below it equals uninterrupted delivery, for a client that applies all it gets |
| Resume.CopiesNeverReachLedger | apps/openlive-gateway/web/app.js:2070-2071 | with the sequence check in front, the ledger after one connection is what every fresh message delivered once makes it, whatever resumes it held |
| Resume.SkippingClientCompletes | apps/openlive-gateway/web/app.js:2451-2458 | sent everything up to what it last saw and then a replay, a client with the check has been handed all that was sent, once and in order, if and only if nothing was sent between the two cursors |
| Fft.NextReversed | apps/openlive-gateway/web/rnnoise-worklet.js:158-163 | the carry loop turns the bit-reversal of i into that of i + 1, and ends |
| Fft.BitReverse | apps/openlive-gateway/web/rnnoise-worklet.js:146-164 | the swap loop permutes the samples by bit reversal |
| Fft.RevInvolutive | apps/openlive-gateway/web/rnnoise-worklet.js:146-164 | bit reversal is its own inverse, so each pair is swapped once |
| Fft.Butterfly | apps/openlive-gateway/web/rnnoise-worklet.js:169-182 | one butterfly turns two transforms of length h into one of length 2h |
| Fft.Cross | apps/openlive-gateway/web/rnnoise-worklet.js:170-181 | the butterfly on two cells, and nothing else changes |
| Fft.Butterflies | apps/openlive-gateway/web/rnnoise-worklet.js:165-183 | after the pass for blocks of size s every block holds its own transform |
| Fft.FftRadix2 | apps/openlive-gateway/web/rnnoise-worklet.js:146-184 | in place, for every power of two, the samples become their Fourier sums |
| Fft.IfftRadix2 | apps/openlive-gateway/web/rnnoise-worklet.js:186-190 | in place, the samples become the sums with the opposite turning direction |
| Fft.ConjSpectrum | apps/openlive-gateway/web/rnnoise-worklet.js:186-190 | conjugating before and after turns the transform around |
| Fft.SynthesisOfSpectrum | apps/openlive-gateway/web/rnnoise-worklet.js:146-190 | synthesis after analysis is n times the input |
| Tone.ToneFillsItsBin | apps/openlive-gateway/web/rnnoise-worklet.js:146-184 | analysed, a pure tone fills its own bin and leaves every other empty, which fixes the turning direction |
| Fft.NextPow2 | apps/openlive-gateway/web/rnnoise-worklet.js:140-144 | the least power of two that is not smaller |
| Denoise.FrameSuppressor.Judge | apps/openlive-gateway/web/rnnoise-worklet.js:97-108 | a frame is noise while warming up or when its mean power is below 1.8 times the estimate's |
| Denoise.FrameSuppressor.ApplyGains | apps/openlive-gateway/web/rnnoise-worklet.js:97-127 | the estimate of every bin is brought up to date, and every bin and its mirror image get the gain of the new estimate, each once |
| Denoise.EstimateStaysWithin | apps/openlive-gateway/web/rnnoise-worklet.js:107-127 | over any frames, the estimate of a bin stays within every range that holds its start and the bin's powers, and the first 25 frames all count as noise |
| Denoise.NeverAmplifies | apps/openlive-gateway/web/rnnoise-worklet.js:110-126 | the gains raise the power of no bin and lower none below the square of the floor, so a frame never gains power in the spectrum |
| NoiseRule.GainsFollowNoise | apps/openlive-gateway/web/rnnoise-worklet.js:118-126 | a bin no louder than the noise estimate is cut to a tenth, one a hundred times as loud keeps 99 percent, and its mirror image likewise |
| NoiseRule.FrameIsJudged | apps/openlive-gateway/web/rnnoise-worklet.js:107-129 | a frame taken for noise moves every estimate a twentieth of the way to its power; any other raises none and lowers by a fifth |
| NoiseRule.EstimateSettles | apps/openlive-gateway/web/rnnoise-worklet.js:107-129 | under steady power what separates an estimate from it shrinks by a twentieth a frame |
| Denoise.FrameSuppressor.DenoiseFrame | apps/openlive-gateway/web/rnnoise-worklet.js:84-137 | the scaled real part of window, transform, adaptive gains and inverse transform, and the noise estimate after it |
| Denoise.FilteredIsReal | apps/openlive-gateway/web/rnnoise-worklet.js:110-137 | whatever the gains, the inverse transform is real, so reading the real part alone loses nothing |
| Denoise.UnitGainsDouble | apps/openlive-gateway/web/rnnoise-worklet.js:131-136 | with every gain at 1 the windowed frame comes back at twice its size |
| DenoiseRing.RnnoiseProcessor.Process | apps/openlive-gateway/web/rnnoise-worklet.js:55-82 | over any sequence of blocks, the output is dry for one frame and from then on the cleaned stream one frame late; disabled it is the input |
| DenoiseRing.RnnoiseProcessor.Reset | apps/openlive-gateway/web/rnnoise-worklet.js:44-51 | the stream starts over |
| DenoiseRing.FirstFrameTwice | apps/openlive-gateway/web/rnnoise-worklet.js:65-80 | with a transparent suppressor the output is a one-frame delay whose first frame is heard twice |
| Suppression.RingIsCleared | apps/openlive-gateway/web/rnnoise-worklet.js:55-137 | with the adaptive suppressor in it, the ring plays the first frame dry and then each frame cleared under the estimate that the frames before it left |
| Suppression.CleanStream | apps/openlive-gateway/web/rnnoise-worklet.js:55-137 | the whole worklet on a stream in blocks of any lengths: every output sample |
| Playback.PlaybackProcessor.HandleEnqueue | apps/openlive-gateway/web/audio-playback-worklet.js:42-55 | the frame joins the queue and its samples the count |
| Playback.PlaybackProcessor.HandleComplete | apps/openlive-gateway/web/audio-playback-worklet.js:56-73 | idle is reported at once only when nothing of the generation is left |
| Playback.PlaybackProcessor.CancelGeneration | apps/openlive-gateway/web/audio-playback-worklet.js:79-101 | the generation leaves the queue; the playing frame starts to fade |
| Playback.PlaybackProcessor.NextSample | apps/openlive-gateway/web/audio-playback-worklet.js:147-186 | the sample handed out and the state after it, concealment and fade included |
| Playback.PlaybackProcessor.DropCanceledCurrent | apps/openlive-gateway/web/audio-playback-worklet.js:237-249 | the rest of the fading frame is given up and reported as cancelled |
| Playback.PlaybackProcessor.HandleUnderflow | apps/openlive-gateway/web/audio-playback-worklet.js:251-301 | concealment for a stream still open, else a stop with idle for a finished one |
| Playback.PlaybackProcessor.Render | apps/openlive-gateway/web/audio-playback-worklet.js:120-134 | the samples written are those handed out one by one, up to the first underflow |
| Playback.PlaybackProcessor.Process | apps/openlive-gateway/web/audio-playback-worklet.js:103-145 | one audio callback: silent until enough is queued or a queued generation is over, then the samples and the state of the loop |
| PlaybackTheorems.RenderedIsRun | apps/openlive-gateway/web/audio-playback-worklet.js:120-134 | every callback is a run of the elementary operations |
| PlaybackTheorems.CountIsExact | apps/openlive-gateway/web/audio-playback-worklet.js:42-186 | with no empty frame the count is the unplayed samples held, after any run, so its clamps never bind |
| PlaybackTheorems.EmptyFrameMiscounts | apps/openlive-gateway/web/audio-playback-worklet.js:165-184 | moving past an empty frame keeps the count exact if and only if it was zero |
| PlaybackTheorems.EmptyFrameRun | apps/openlive-gateway/web/audio-playback-worklet.js:165-184 | a run that ends with one sample held and a count of 0 |
| PlaybackTheorems.EverySampleHasOneFate | apps/openlive-gateway/web/audio-playback-worklet.js:42-249 | every sample that arrived was sounded, dropped by a cancel or is held, exactly one of these |
| PlaybackTheorems.PlayedInOrder | apps/openlive-gateway/web/audio-playback-worklet.js:147-186 | samples are sounded in the order they arrived, and what is held comes after |
| PlaybackTheorems.CancelFadesOut | apps/openlive-gateway/web/audio-playback-worklet.js:79-186 | after one cancel fewer samples of the generation are sounded than the fade is long, at gains falling in equal steps from 1 |
| PlaybackTheorems.RampFalls | apps/openlive-gateway/web/audio-playback-worklet.js:166-173 | these gains start at 1, strictly decrease and stay positive |
| Fading.WrittenIsHanded | apps/openlive-gateway/web/audio-playback-worklet.js:120-134 | the samples a callback writes are those its run of elementary operations hands out |
| Fading.HandedIsStream | apps/openlive-gateway/web/audio-playback-worklet.js:165-184 | in every run a queued sample is handed out as the sample that arrived at its place, times the gain it is sounded at |
| Fading.CancelIsHeard | apps/openlive-gateway/web/audio-playback-worklet.js:79-184 | after one cancel fewer samples of the generation are handed out than the fade is long, the k-th of them the one that arrived at its place times (total - k)/total |
| Fading.UncancelledIsPlain | apps/openlive-gateway/web/audio-playback-worklet.js:165-184 | a generation that no one cancelled is handed out as it arrived |
| Fading.ConcealmentIsHeard | apps/openlive-gateway/web/audio-playback-worklet.js:149-157 | a concealment hands out the whole burst in order |
| Fading.GapIsConcealedExactly | apps/openlive-gateway/web/audio-playback-worklet.js:251-281 | a gap is concealed if and only if the generation heard last is not over, more than 32 samples are remembered and none are booked; otherwise playback stops |
| Fading.ConcealsOnce | apps/openlive-gateway/web/audio-playback-worklet.js:257-281 | after one concealment there is no other until a cancel |
| Fading.GapIsReported | apps/openlive-gateway/web/audio-playback-worklet.js:251-291 | a gap in a stream still open is reported, with word of whether it is concealed, unless one already is |
| Fading.GapIsReportedOnce | apps/openlive-gateway/web/audio-playback-worklet.js:42-291 | and then nothing more is said of gaps until something arrives |
| Fading.CompletionIsReported | apps/openlive-gateway/web/audio-playback-worklet.js:56-73 | the end of the generation heard last is reported idle at once when nothing of it is left, and else when playback stops on it |
| Concealment.LivedIsRun | apps/openlive-gateway/web/audio-playback-worklet.js:41-145 | every run of messages and audio callbacks is a run of the elementary operations, so what holds after those holds after it |
| Concealment.LivedPlaying | apps/openlive-gateway/web/audio-playback-worklet.js:103-158 | in every such run a frame is current only while playback is started, and its generation is the one heard last |
| Concealment.CanceledStillConceals | apps/openlive-gateway/web/audio-playback-worklet.js:79-301 | after a cancel with nothing else queued, in any run: the callbacks that fit into what is left conceal nothing, and the next one does if and only if the state before the cancel, `started` included, says so; otherwise playback stops, or stays stopped, and a frame that was played out is reported idle |
| Concealment.NothingCounted | apps/openlive-gateway/web/audio-playback-worklet.js:79-117 | without empty frames nothing is counted after such a cancel with nothing playing, so a stopped worklet does not start |
| Concealment.LongFrameConceals | apps/openlive-gateway/web/audio-playback-worklet.js:79-278 | runs that conceal: one frame longer than the fade, cancelled after its first sample |
| Concealment.CancelBetweenFramesConceals | apps/openlive-gateway/web/audio-playback-worklet.js:79-278 | runs that conceal: a callback ends exactly with the frame, and the cancel comes before the next |
| Concealment.CancelAfterStopIsSilent | apps/openlive-gateway/web/audio-playback-worklet.js:103-117 | runs that do not, whatever is remembered: playback has stopped and idle was reported before the cancel |
| FrameCount.AudioSession.FinishEnqueue | apps/openlive-gateway/web/audio-session.js:206-227 | the frame is counted and posted |
| FrameCount.AudioSession.Cancel | apps/openlive-gateway/web/audio-session.js:243-259 | the generation is remembered among the last 256, no longer counted, and the worklet told |
| FrameCount.AudioSession.CancelAllPlayback | apps/openlive-gateway/web/audio-session.js:193-202 | every counted generation is cancelled and no count is left |
| FrameCount.AudioSession.HandlePlaybackMessage | apps/openlive-gateway/web/audio-session.js:375-404 | a played report takes one off, the end of a generation takes all |
| FrameCount.AudioSession.HasActiveOutput | apps/openlive-gateway/web/audio-session.js:464-466 | true exactly when some generation has a positive count |
| FrameCount.FrameCountIsExact | apps/openlive-gateway/web/audio-session.js:204-404 | in every interleaving the count is frames in transit plus frames held plus played reports in transit, for a generation never cancelled, reset or fed late |
| FrameCount.IdleDiscardsNothing | apps/openlive-gateway/web/audio-session.js:397-404 | the idle report of such a generation never discards a frame still counted |
| Ports.DeliveredInOrder | apps/openlive-gateway/web/audio-session.js:204-259 | delivering what is under way hands the worklet exactly that, in the order it was posted |
| Ports.CancelReachesWorklet | apps/openlive-gateway/web/audio-session.js:243-259 | a cancel reaches the worklet after all that was posted before, and nothing of the generation is counted meanwhile |
| Ports.PacketReachesWorklet | apps/openlive-gateway/web/audio-session.js:204-227 | a packet reaches the worklet whole |
| Ports.LatePacketIsIgnored | apps/openlive-gateway/web/audio-session.js:204-250 | a packet of a cancelled generation is ignored while fewer than 256 cancels have followed, the generation not having been remembered before |
| EchoRing.EchoReferenceCorrelator.Write | apps/openlive-gateway/web/audio-utils.js:170-177 | each slot holds what was last written to it, whatever the frames |
| EchoRing.EchoReferenceCorrelator.ReadAligned | apps/openlive-gateway/web/audio-utils.js:188-203 | null exactly outside the window, else the slots of the requested frames |
| EchoRing.TurnsShare | apps/openlive-gateway/web/audio-utils.js:239-241 | frames a whole number of turns apart share a slot, negative frames included |
| EchoRing.SlotIsStream | apps/openlive-gateway/web/audio-utils.js:170-177 | after contiguous writes the last frames of the stream are in their slots, across wrap-around |
| EchoRing.FaithfulExactly | apps/openlive-gateway/web/audio-utils.js:162-203 | granted reads are slices of the zero-extended stream if and only if it reaches frame 0 or starts within one ring's length of it |
| EchoRing.StaleReads | apps/openlive-gateway/web/audio-utils.js:162-203 | otherwise some readable frame gives a stale sample |
| EchoRing.WriteSeries | apps/openlive-gateway/web/audio-utils.js:170-177 | blocks written end to end into a fresh ring leave it as one write of the whole stream would |
| EchoRing.ReadStream | apps/openlive-gateway/web/audio-utils.js:162-203 | after such a series a read is granted exactly within one ring's length of the latest frame, and then returns the requested slice |
| Nlms.NlmsAec.ProcessSample | apps/openlive-gateway/web/audio-utils.js:286-313 | residual and weights are those of a newest-first shift register |
| Nlms.NlmsAec.Process | apps/openlive-gateway/web/audio-utils.js:323-330 | the same for every block, missing far-end samples being silence |
| Nlms.RegisterIsPast | apps/openlive-gateway/web/audio-utils.js:286-313 | the register is the recent far-end stream, so the residual is the near signal less a finite convolution of it |
| Nlms.PostErrorIs | apps/openlive-gateway/web/audio-utils.js:302-308 | the error left by the new weights is near - leakage * y - mu * e * (P - eps) / P |
| Nlms.UpdateNeverOvershoots | apps/openlive-gateway/web/audio-utils.js:302-308 | without leakage and with mu in [0, 1] that error is no larger than the residual |
| Nlms.NeverMovesAway | apps/openlive-gateway/web/audio-utils.js:286-313 | on a pure echo, without leakage and with mu in [0, 2], the weights never move away from the echo path |
| Bytes.LeRoundTrip | crates/openlive-protocol/src/media.rs:162-186 | reading the low bytes of a number that fits gives the number |
| Bytes.FromLeRoundTrip | crates/openlive-protocol/src/media.rs:162-186 | writing what was read gives the bytes |
| Bytes.LeAt | crates/openlive-protocol/src/media.rs:38-74 | the byte at i has the weight 256^i |
| MediaCodec.Encode | crates/openlive-protocol/src/media.rs:38-74 | the bytes of every field at its place |
| MediaCodec.DecodeOfEncode | crates/openlive-protocol/src/media.rs:82-133 | every packet decodes to itself less the nil generation and non-finite meters, or is refused for the stated reason |
| MediaCodec.RoundTripExactly | crates/openlive-protocol/src/media.rs:36-133 | exactly which packets survive the round trip |
| MediaCodec.EncodeOfDecode | crates/openlive-protocol/src/media.rs:82-133 | accepted bytes come back up to bytes 6, 7, 47 and non-finite meters |
| MediaCodec.BytesSurviveExactly | crates/openlive-protocol/src/media.rs:82-133 | exactly which accepted byte strings come back unchanged |
| MediaCodec.LayoutIs | crates/openlive-protocol/src/media.rs:38-74 | where every byte of an encoded packet is, by offset and weight |
| MediaCodec.AcceptedExactly | crates/openlive-protocol/src/media.rs:82-119 | exactly which bytes are accepted as a packet |
| BrowserCodec.EncodeInputAudio | apps/openlive-gateway/web/protocol.js:9-35 | the browser's buffer is byte for byte the gateway's encoding of the same fields |
| BrowserCodec.GatewayReadsBrowser | apps/openlive-gateway/web/protocol.js:9-35 | what the browser sends decodes in the gateway to the same fields with no generation, or is refused for empty payload or metadata out of range |
| BrowserCodec.BrowserReadsGateway | apps/openlive-gateway/web/protocol.js:37-57 | what the gateway sends arrives in the browser with the same fields, 64-bit ones rounded to the nearest double, or is refused as input audio or an odd payload |
| BrowserCodec.RoundsToNearest | apps/openlive-gateway/web/protocol.js:46-48 | a 64-bit field becomes a number of at most 53 significant bits, none of which is nearer, ties going to even |
| BrowserCodec.ArrivesExactly | apps/openlive-gateway/web/protocol.js:46-48 | a 64-bit field arrives unrounded exactly when it has at most 53 significant bits, always up to 2^53 |
| BrowserCodec.UuidTextIsRfc | apps/openlive-gateway/web/protocol.js:59-62 | the text is the 4-2-2-2-6 form of RFC 9562, section 4 |
| BrowserCodec.UuidTextInjective | apps/openlive-gateway/web/protocol.js:59-62 | two UUIDs never share a text |
| BrowserCodec.SamplesInjective | apps/openlive-gateway/web/protocol.js:55 | no payload byte is lost in the samples |
| BrowserCodec.SamplesAreTwosComplement | apps/openlive-gateway/web/protocol.js:55 | a sample is the one 16-bit two's complement number of its two bytes, low byte first |
| Endpointing.EndpointingTracker.ObserveWithSemantic | crates/openlive-audio/src/lib.rs:113-147 | the tracker and the prediction after one frame |
| Endpointing.EndpointingTracker.UpdateEnergyShape | crates/openlive-audio/src/lib.rs:149-156 | falling frames are counted up to 12 and down to 0 |
| Endpointing.EndpointingTracker.FinalityPrediction | crates/openlive-audio/src/lib.rs:159-197 | the weighted scores and the decision |
| Endpointing.TrackerMeans | crates/openlive-audio/src/lib.rs:113-147 | after any run the fields are the speech total and the length of the silence since the last speech |
| Endpointing.EndpointingWindow | crates/openlive-audio/src/lib.rs:113-197 | a response needs silence after speech of 183 ms, 18 ms with a semantic score, and 320 ms always suffice |
| Endpointing.BoundsAreTight | crates/openlive-audio/src/lib.rs:113-197 | both lower bounds are reached by runs of frames: silences of exactly 183 ms, and of 18 ms with a score of 1, are answered |
| Endpointing.ShortcutResponds | crates/openlive-audio/src/lib.rs:174-177 | 140 ms of silence are answered at a semantic score of 0.85, and 80 ms at 0.95 |
| Endpointing.FallingCounts | crates/openlive-audio/src/lib.rs:149-156 | after any run the falling frames counted are at most the falls of the loudness since speech began, twelve at most, and short of them by no more than the rises |
| Endpointing.AnswerNeedsFalls | crates/openlive-audio/src/lib.rs:159-180 | without a shortcut an answer takes enough silence and falls together: with no falls 280 ms of silence with a score and 291 ms without |
| Hybrid.Route | crates/openlive-provider/src/hybrid.rs:143-213 | the router sends each input on in its order and stops after the first Close |
| Hybrid.ChildSeesProjection | crates/openlive-provider/src/hybrid.rs:143-213 | each child sees the client's input position by position, commits for the other turned into cancellations |
| Hybrid.CommitReachesOne | crates/openlive-provider/src/hybrid.rs:165-193 | each commit reaches exactly one child and the other is told to cancel that generation |
| Hybrid.Merge | crates/openlive-provider/src/hybrid.rs:105-141 | the output interleaves both children without loss, repetition or reordering, and stops short only when the receiver is gone |

## Left out

- Floating-point rounding, and 32-bit overflow of the shifts in the transform for lengths of 2^30 and more: lengths in the worklet are a few hundred samples.
- `StreamingSafety`, `SessionStore`, `needs_deep_cognition` and the acoustic front end: their answers are arbitrary inputs.
- Coordinator.SessionCoordinator.ApplyDecisions: the engine's answers are decisions without a generation of their own, which is all the engine makes (`crates/openlive-runtime/src/lib.rs:515-536`).
- Confidence, reasons and event ids of the engine's decisions.
- Parent ids, stream ids, media metadata other than time and generation, prompt texts, human-readable summaries (kept as data) and serialisation, including its failure path.
- A client transport that has closed: sends are recorded as if they were taken; a full media queue is modelled.
- `ClientTimeline`, `PlayoutTracker`, `TelemetryGate` and `RepairContext`: their refusals and decisions are the inputs `EventRefused` and `publish`.
- Client events that send nothing and change none of the modelled state are one input, `Quiet`.
- Provider events that happen to be task outcomes travel as control messages; they are not ledger entries, and exactly-once is about ledger entries.
- Resume across connections: a session id belongs to one connection, so only resuming within it is modelled.
- UUID version 4 draws are distinct by construction; version 5 lease ids are their hashed names.
- Client fields kept in local storage, rendering, and the clock: delivery times are arguments, and the resume theorems leave out times and latencies.
- Playback.PlaybackProcessor.Process: the jitter controller's target and its word that playback is steady are arbitrary; packet-loss concealment is an arbitrary burst, output levels carry no value, and the echo reference frames that the worklet captures are not modelled.
- A generation cancelled, reset or fed after its completion: the frame count promises nothing for it.
- Denoise.FrameSuppressor.DenoiseFrame: the values of the window are arbitrary, and sine and cosine are any pair that obeys the addition laws.
- `estimate` of the echo correlator, resamplers, emotion and voice activity heuristics.
- `Nlms`: a power floor of zero or below, for which the division is undefined.
- A child of the hybrid provider that stops reading: what it would have been sent from then on is lost.
- HTTP, WebRTC, desktop shell, user interface, configuration, and small utilities.
