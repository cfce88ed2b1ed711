// Wire vocabulary of the live session: identifiers, realtime events, envelopes, and the two
// channels the gateway writes to (one to the browser, one to the provider).
module Protocol {

  // A UUID. Version-4 draws are modelled as a counter, so two draws never coincide; identifiers
  // that arrive from outside (task ids, client-chosen generation ids) are arbitrary.
  type Id = nat

  const U64_MAX: nat := 0xFFFF_FFFF_FFFF_FFFF
  const U32_MAX: nat := 0xFFFF_FFFF

  datatype Option<+T> = None | Some(value: T)

  // u64::saturating_add.
  function SaturatingAdd(a: nat, b: nat): (r: nat)
    ensures r <= U64_MAX
    ensures a + b <= U64_MAX ==> r == a + b
  {
    if a + b > U64_MAX then U64_MAX else a + b
  }

  datatype EvidenceKind = Transcript | ToolCall | Visual | Timing

  datatype TaskResult = Success | Failure | Cancelled

  datatype LinkType = TaskProof | TaskContext | TaskFailure

  datatype EvidenceLink = EvidenceLink(source: Id, target: Id, linkType: LinkType, confidence: real)

  datatype Lifecycle = Transcribing | Reasoning | Synthesizing | Generating | NativeSpeechStarted | Complete

  datatype LatencyPhase =
    | ResponseCommitted | FirstProviderEvent | FirstTextDelta | FirstAudioFrame | ProviderComplete | CancelRequested

  datatype InteractionAction =
    | Listen | HoldFloor | Backchannel | StartResponse | SoftDuck | HardYield | Resume | Replan
    | Delegate | CancelTask | EndSession

  datatype TaskRequested = TaskRequested(
    taskId: Id, intent: string, deadlineMs: Option<nat>, evidenceRequired: seq<EvidenceKind>, generation: Option<Id>)

  datatype Warning = VisualUnavailable

  datatype TaskAcknowledged = TaskAcknowledged(
    taskId: Id, deadlineMs: nat, provider: Option<string>, warnings: seq<Warning>)

  // The human-readable summary of an outcome, kept as data.
  datatype Summary =
    | TimedOut(intent: string)
    | CancelledTask(intent: string)
    | NoEvidence(intent: string)
    | WithEvidence(intent: string, count: nat, kinds: set<EvidenceKind>)

  datatype ErrorCode = NoError | DeadlineElapsed(deadlineMs: nat) | ClientCancelled(reason: Option<string>)

  datatype TaskOutcome = TaskOutcome(
    taskId: Id, result: TaskResult, summary: Summary, evidenceIds: seq<Id>, error: ErrorCode)

  datatype Event =
    | SessionCreated
    | CapabilitySelected
    | VisualInputAccepted
    | VisualInputRejected
    | Observation
    | EndpointingPrediction
    | InteractionDecision(action: InteractionAction)
    | OutputTextDelta(delta: string)
    | OutputTextFinal(text: string)
    | OutputAudioCancel(cutoffUs: nat)
    | ProviderState(state: Lifecycle)
    | TaskAcknowledgedEvent(ack: TaskAcknowledged)
    | TaskOutcomeEvent(outcome: TaskOutcome)
    | EvidenceLinkEvent(link: EvidenceLink)
    | LatencyMark(phase: LatencyPhase)
    | ErrorEvent(code: string)
    | Pong
    | OtherEvent(tag: string)

  datatype Envelope = Envelope(eventId: Id, sequence: nat, mediaTimeUs: nat, generation: Option<Id>, event: Event)

  // What the gateway hands to the browser's writer. RawText is the pre-serialised form used for
  // buffered envelopes; `replay` records whether this copy came out of the resume buffer.
  datatype ServerMessage =
    | Control(envelope: Envelope)
    | RawText(envelope: Envelope, replay: bool)
    | Media(sequence: nat, mediaTimeUs: nat, generation: Id)

  datatype ProviderInput =
    | AudioFrame(mediaTimeUs: nat)
    | CommitResponse(generation: Id, version: nat, mediaTimeUs: nat)
    | CancelGeneration(generation: Id)
    | Close

  // Everything handed to either channel, in order.
  datatype Entry = ToClient(message: ServerMessage) | ToProvider(input: ProviderInput)

  datatype ProviderOutput = ProviderEvent(event: Event) | Audio

  datatype Emission = Emission(generation: Option<Id>, mediaOffsetUs: nat, output: ProviderOutput)
}
