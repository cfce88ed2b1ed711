// The gateway's session coordinator: one step per client event, audio frame or provider
// emission. Functions give the effect of every step on a value; the class is the in-place form.
module Session {
  import opened Protocol
  import opened AnswerLease
  import opened TaskLedger

  // ---------- latency marks of one generation ----------

  datatype LatencyTracker = LatencyTracker(firstProviderEvent: bool, firstTextDelta: bool, firstAudioFrame: bool)

  const FRESH_TRACKER := LatencyTracker(false, false, false)

  predicate CompletesGeneration(event: Event) {
    event == ProviderState(Complete)
  }

  function EventMarks(l: LatencyTracker, event: Event): seq<LatencyPhase> {
    (if l.firstProviderEvent then [] else [FirstProviderEvent]) +
    (if event.OutputTextDelta? && !l.firstTextDelta then [FirstTextDelta] else []) +
    (if CompletesGeneration(event) then [ProviderComplete] else [])
  }

  function AudioMarks(l: LatencyTracker): seq<LatencyPhase> {
    (if l.firstProviderEvent then [] else [FirstProviderEvent]) +
    (if l.firstAudioFrame then [] else [FirstAudioFrame])
  }

  function Observe(l: LatencyTracker, output: ProviderOutput): (LatencyTracker, seq<LatencyPhase>) {
    match output
    case ProviderEvent(event) =>
      (l.(firstProviderEvent := true, firstTextDelta := l.firstTextDelta || event.OutputTextDelta?),
       EventMarks(l, event))
    case Audio =>
      (l.(firstProviderEvent := true, firstAudioFrame := true), AudioMarks(l))
  }

  // ---------- state ----------

  datatype ActiveGeneration = ActiveGeneration(id: Id, baseUs: nat, latency: LatencyTracker)

  datatype Config = Config(providerId: string, defaultDeadlineMs: nat, safetyEnabled: bool)

  datatype SessionState = SessionState(
    config: Config,
    sequence: nat,                     // last sequence number handed out
    minted: nat,                       // UUIDs drawn so far
    lease: LeaseState,
    active: Option<ActiveGeneration>,
    tasks: TaskState,
    log: seq<Entry>,                   // everything written to either channel
    providerOpen: bool,                // the provider still reads its input channel
    open: bool)                        // the session loop has not ended

  function Start(config: Config): SessionState {
    SessionState(config, 0, 0, NO_LEASE, None, EMPTY_LEDGER, [], true, true)
  }

  // ---------- egress ----------

  function NextSequence(sequence: nat): nat {
    SaturatingAdd(sequence, 1)
  }

  function Draw(s: SessionState, timeUs: nat, event: Event, g: Option<Id>): Envelope {
    Envelope(s.minted, NextSequence(s.sequence), timeUs, g, event)
  }

  // An envelope was built but not sent.
  function Drawn(s: SessionState): SessionState {
    s.(sequence := NextSequence(s.sequence), minted := s.minted + 1)
  }

  function Sent(s: SessionState, timeUs: nat, event: Event, g: Option<Id>): SessionState {
    Drawn(s).(log := s.log + [ToClient(Control(Draw(s, timeUs, event, g)))])
  }

  function SentAndBuffered(s: SessionState, timeUs: nat, event: Event, clockMs: nat): SessionState {
    var envelope := Draw(s, timeUs, event, None);
    Drawn(s).(tasks := Buffered(s.tasks, envelope.sequence, envelope.eventId, envelope, clockMs),
              log := s.log + [ToClient(RawText(envelope, false))])
  }

  function Told(s: SessionState, input: ProviderInput): SessionState {
    if s.providerOpen then s.(log := s.log + [ToProvider(input)]) else s
  }

  function MarksSent(s: SessionState, timeUs: nat, g: Id, phases: seq<LatencyPhase>): SessionState {
    if phases == [] then s
    else Sent(MarksSent(s, timeUs, g, phases[..|phases| - 1]), timeUs, LatencyMark(phases[|phases| - 1]), Some(g))
  }

  function OutcomesSent(s: SessionState, timeUs: nat, outcomes: seq<TaskOutcome>, clockMs: nat): SessionState {
    if outcomes == [] then s
    else
      SentAndBuffered(OutcomesSent(s, timeUs, outcomes[..|outcomes| - 1], clockMs), timeUs,
                      TaskOutcomeEvent(outcomes[|outcomes| - 1]), clockMs)
  }

  function ReplaySent(s: SessionState, envelopes: seq<Envelope>): SessionState {
    if envelopes == [] then s
    else
      var t := ReplaySent(s, envelopes[..|envelopes| - 1]);
      t.(log := t.log + [ToClient(RawText(envelopes[|envelopes| - 1], true))])
  }

  // ---------- evidence ----------

  function Classify(event: Event): Option<EvidenceKind> {
    match event
    case OutputTextDelta(_) => Some(Transcript)
    case OutputTextFinal(_) => Some(Transcript)
    case LatencyMark(_) => Some(Timing)
    case VisualInputAccepted => Some(Visual)
    case ProviderState(state) => if state == Generating || state == Complete then Some(Timing) else None
    case _ => None
  }

  function LinkSent(s: SessionState, timeUs: nat, link: EvidenceLink, clockMs: nat): SessionState {
    if Linked(s.tasks, link) then s
    else SentAndBuffered(s.(tasks := EvidenceLinked(s.tasks, link)), timeUs, EvidenceLinkEvent(link), clockMs)
  }

  function AttachedTo(s: SessionState, id: Id, kind: EvidenceKind, evidence: Id, timeUs: nat,
                      clockMs: nat): SessionState {
    if !Attaches(s.tasks, id, kind, evidence) then s
    else
      LinkSent(s.(tasks := EvidenceAttached(s.tasks, id, kind, evidence)), timeUs,
               EvidenceLink(id, evidence, TaskProof, 1.0), clockMs)
  }

  function AttachedToAll(s: SessionState, ids: seq<Id>, kind: EvidenceKind, evidence: Id, timeUs: nat,
                         clockMs: nat): SessionState {
    if ids == [] then s
    else
      AttachedTo(AttachedToAll(s, ids[..|ids| - 1], kind, evidence, timeUs, clockMs),
                 ids[|ids| - 1], kind, evidence, timeUs, clockMs)
  }

  // ---------- what the surroundings decide ----------

  // The safety gate's verdict on one text event.
  datatype SafetyVerdict = Hold | Release(text: string) | Intervene(text: string)

  // Choices no rule of the coordinator fixes: the clock, hash-table orders, the safety gate, and
  // whether the media channel had room.
  datatype Oracle = Oracle(
    clockMs: nat,
    expiryOrder: seq<Id>, evidenceOrder: seq<Id>, completionOrder: seq<Id>,
    verdict: SafetyVerdict, audioWithheld: bool, mediaFull: bool)

  // ---------- starting and cancelling a response ----------

  // A generation is drawn, leased, made active, and takes over every unbound task.
  function Begun(s: SessionState, timeUs: nat): SessionState {
    var g := s.minted;
    s.(minted := g + 1, lease := Granted(s.lease, g), tasks := PendingBound(s.tasks, g),
       active := Some(ActiveGeneration(g, timeUs, FRESH_TRACKER)))
  }

  function Started(s: SessionState, timeUs: nat): SessionState {
    if s.active.Some? then s
    else
      var g := s.minted;
      var marked := Sent(Begun(s, timeUs), timeUs, LatencyMark(ResponseCommitted), Some(g));
      if marked.providerOpen
      then Told(marked, CommitResponse(g, marked.lease.version, timeUs))
      else Sent(marked, timeUs, ErrorEvent("provider_closed"), None)
  }

  function Interrupted(s: SessionState, action: InteractionAction, timeUs: nat): SessionState {
    if s.active.None? then s
    else
      var g := s.active.value.id;
      var marked := Sent(s.(active := None), timeUs, LatencyMark(CancelRequested), Some(g));
      var told := Told(marked.(lease := Withdrawn(marked.lease, g)), CancelGeneration(g));
      if action == HardYield then Sent(told, timeUs, OutputAudioCancel(timeUs), Some(g)) else told
  }

  function Acted(s: SessionState, action: InteractionAction, timeUs: nat): SessionState {
    match action
    case Listen => s.(lease := TurnOpened(s.lease))
    case StartResponse => Started(s, timeUs)
    case HardYield => Interrupted(s, action, timeUs)
    case Replan => Interrupted(s, action, timeUs)
    case _ => s
  }

  function Decided(s: SessionState, actions: seq<InteractionAction>, timeUs: nat): SessionState {
    if actions == [] then s
    else
      var t := Decided(s, actions[..|actions| - 1], timeUs);
      var action := actions[|actions| - 1];
      var tag := if action == HardYield && t.active.Some? then Some(t.active.value.id) else None;
      Acted(Sent(t, timeUs, InteractionDecision(action), tag), action, timeUs)
  }

  // ---------- provider emissions ----------

  ghost function DeadlinesEnforced(s: SessionState, timeUs: nat, order: seq<Id>, clockMs: nat): SessionState {
    var nowMs := timeUs / 1000;
    var ids := Arrange(order, Expired(s.tasks, nowMs));
    OutcomesSent(s.(tasks := Resolved(s.tasks, ids, Failure)), timeUs, TimedOutOutcomes(s.tasks, ids), clockMs)
  }

  datatype Emitted = Emitted(eventId: Id, event: Event)

  // The event the safety gate lets out in place of `event`, if any.
  function Gated(s: SessionState, event: Event, verdict: SafetyVerdict): Option<Event> {
    if !s.config.safetyEnabled then Some(event)
    else
      match event
      case OutputTextDelta(_) =>
        (match verdict
         case Hold => None
         case Release(text) => if text == "" then None else Some(OutputTextDelta(text))
         case Intervene(text) => Some(OutputTextFinal(text)))
      case OutputTextFinal(text) => Some(OutputTextFinal(if verdict.Hold? then text else verdict.text))
      case _ => Some(event)
  }

  function EventEmitted(s: SessionState, event: Event, g: Id, timeUs: nat, verdict: SafetyVerdict): (SessionState,
                        Option<Emitted>) {
    match Gated(s, event, verdict)
    case None => (s, None)
    case Some(out) =>
      var sent := Sent(s, timeUs, out, Some(g));
      (if s.config.safetyEnabled && event.OutputTextDelta? && verdict.Intervene?
       then Told(sent, CancelGeneration(g)) else sent,
       Some(Emitted(s.minted, out)))
  }

  ghost function EvidenceCollected(s: SessionState, g: Id, emitted: Option<Emitted>, timeUs: nat, order: seq<Id>,
                                   clockMs: nat): SessionState {
    if emitted.None? || Classify(emitted.value.event).None? then s
    else
      AttachedToAll(s, Arrange(order, BoundTo(s.tasks, g)), Classify(emitted.value.event).value,
                    emitted.value.eventId, timeUs, clockMs)
  }

  ghost function Finished(s: SessionState, g: Id, timeUs: nat, order: seq<Id>, clockMs: nat): SessionState {
    var ids := Arrange(order, BoundTo(s.tasks, g));
    OutcomesSent(s.(active := None, tasks := Resolved(s.tasks, ids, Success)), timeUs,
                 CompletedOutcomes(s.tasks, ids), clockMs)
  }

  function MediaSent(s: SessionState, timeUs: nat, g: Id, full: bool): SessionState {
    var n := NextSequence(s.sequence);
    s.(sequence := n, log := if full then s.log else s.log + [ToClient(Media(n, timeUs, g))])
  }

  // An accepted provider event: let through, collected as evidence, and on completion the end of
  // the generation.
  ghost function EventAccepted(s: SessionState, g: Id, event: Event, timeUs: nat, o: Oracle): SessionState {
    var (sent, emitted) := EventEmitted(s, event, g, timeUs, o.verdict);
    var collected := EvidenceCollected(sent, g, emitted, timeUs, o.evidenceOrder, o.clockMs);
    if CompletesGeneration(event) then Finished(collected, g, timeUs, o.completionOrder, o.clockMs) else collected
  }

  // An emission of generation `g`, accepted while `g` is active.
  ghost function Accepted(s: SessionState, g: Id, offsetUs: nat, output: ProviderOutput, o: Oracle): SessionState
    requires s.active.Some?
  {
    var (latency, marks) := Observe(s.active.value.latency, output);
    var timeUs := SaturatingAdd(s.active.value.baseUs, offsetUs);
    var observed := s.(active := Some(s.active.value.(latency := latency)));
    var checked := DeadlinesEnforced(MarksSent(observed, timeUs, g, marks), timeUs, o.expiryOrder, o.clockMs);
    match output
    case Audio =>
      if s.config.safetyEnabled && o.audioWithheld then checked else MediaSent(checked, timeUs, g, o.mediaFull)
    case ProviderEvent(event) => EventAccepted(checked, g, event, timeUs, o)
  }

  ghost function EmissionHandled(s: SessionState, e: Emission, o: Oracle): SessionState {
    match e.generation
    case None => if e.output.ProviderEvent? then Sent(s, e.mediaOffsetUs, e.output.event, None) else s
    case Some(g) =>
      if AnswerLease.Accepts(s.lease, g) && s.active.Some? && s.active.value.id == g
      then Accepted(s, g, e.mediaOffsetUs, e.output, o)
      else s
  }

  // ---------- client events ----------

  function TaskRequestHandled(s: SessionState, timeUs: nat, request: TaskRequested, clockMs: nat): SessionState {
    var nowMs := timeUs / 1000;
    if Rejects(s.tasks, request) then Sent(s, timeUs, ErrorEvent("task_rejected"), None)
    else
      SentAndBuffered(s.(tasks := Admitted(s.tasks, request, nowMs, s.config.defaultDeadlineMs)), timeUs,
                      TaskAcknowledgedEvent(AckFor(request, Some(s.config.providerId), nowMs,
                                                   s.config.defaultDeadlineMs)),
                      clockMs)
  }

  function TaskCancelHandled(s: SessionState, timeUs: nat, id: Id, reason: Option<string>, clockMs: nat): SessionState {
    if id !in s.tasks.active then s
    else
      SentAndBuffered(s.(tasks := ResolvedOne(s.tasks, id, Cancelled)), timeUs,
                      TaskOutcomeEvent(CancelledOutcome(s.tasks, id, reason)), clockMs)
  }

  ghost function ResumeHandled(s: SessionState, timeUs: nat, sameSession: bool, lastSeen: nat,
                               clockMs: nat): SessionState {
    if !sameSession then Sent(s, timeUs, ErrorEvent("session_mismatch"), None)
    else
      Sent(ReplaySent(s.(tasks := Purged(s.tasks, lastSeen, clockMs)), Replayed(s.tasks, lastSeen, clockMs)),
           timeUs, Pong, None)
  }

  // What the interaction engine answers to one observation.
  datatype EngineAnswer = Decisions(actions: seq<InteractionAction>) | EngineFailed

  // The frame is offered to the provider's queue. `queueFull` says it had no room, `reportDrop`
  // that this drop count is one that is reported.
  function FrameOffered(s: SessionState, timeUs: nat, queueFull: bool, reportDrop: bool): SessionState {
    if !queueFull then Told(s, AudioFrame(timeUs))
    else if reportDrop then Sent(s, timeUs, ErrorEvent("provider_backpressure"), None)
    else s
  }

  // Prediction and observation envelopes are numbered whether or not they are published.
  function Observed(s: SessionState, timeUs: nat, publish: bool): SessionState {
    if publish then Sent(Sent(s, timeUs, EndpointingPrediction, None), timeUs, Observation, None)
    else Drawn(Drawn(s))
  }

  // A client audio frame that passed the acoustic front end.
  function AudioHandled(s: SessionState, timeUs: nat, queueFull: bool, reportDrop: bool, publish: bool,
                        answer: EngineAnswer): SessionState {
    if !s.providerOpen then Sent(s, timeUs, ErrorEvent("provider_closed"), None)
    else
      var observed := Observed(FrameOffered(s, timeUs, queueFull, reportDrop), timeUs, publish);
      match answer
      case Decisions(actions) => Decided(observed, actions, timeUs)
      case EngineFailed => Sent(observed, timeUs, ErrorEvent("runtime_error"), None)
  }

  function Closed(s: SessionState): SessionState {
    var cancelled := if s.active.Some? then Told(s.(active := None), CancelGeneration(s.active.value.id)) else s;
    Told(cancelled, Close).(open := false)
  }

  // ---------- steps and runs ----------

  datatype Stimulus =
    | Quiet                                        // an accepted event that sends nothing
    | EventRefused(timeUs: nat, code: string)           // any event or packet rejected with an error
    | CapabilityOffered(timeUs: nat)
    | ImageShown(timeUs: nat)
    | Pinged(timeUs: nat)
    | TaskAsked(timeUs: nat, request: TaskRequested)
    | TaskCancelled(timeUs: nat, id: Id, reason: Option<string>)
    | ResumeAsked(timeUs: nat, sameSession: bool, lastSeen: nat)
    | TranscriptFinal(timeUs: nat)                 // a transcript delta that asks for a response
    | BargeIn(timeUs: nat)
    | AudioArrived(timeUs: nat, queueFull: bool, reportDrop: bool, publish: bool, answer: EngineAnswer)
    | FromProvider(emission: Emission)
    | ProviderGone
    | Shutdown

  datatype Input = Input(stimulus: Stimulus, oracle: Oracle)

  ghost function Step(s: SessionState, input: Input): SessionState {
    var o := input.oracle;
    if !s.open then s
    else
      match input.stimulus
      case Quiet => s
      case EventRefused(t, code) => Sent(s, t, ErrorEvent(code), None)
      case CapabilityOffered(t) => Sent(s, t, CapabilitySelected, None)
      case ImageShown(t) => Sent(s, t, VisualInputRejected, None)
      case Pinged(t) => Sent(s, t, Pong, None)
      case TaskAsked(t, request) => TaskRequestHandled(s, t, request, o.clockMs)
      case TaskCancelled(t, id, reason) => TaskCancelHandled(s, t, id, reason, o.clockMs)
      case ResumeAsked(t, same, lastSeen) => ResumeHandled(s, t, same, lastSeen, o.clockMs)
      case TranscriptFinal(t) => Started(s, t)
      case BargeIn(t) => Interrupted(s, HardYield, t)
      case AudioArrived(t, full, report, publish, answer) => AudioHandled(s, t, full, report, publish, answer)
      case FromProvider(e) => EmissionHandled(s, e, o)
      case ProviderGone => s.(providerOpen := false)
      case Shutdown => Closed(s)
  }

  // The state after a run; `announce` sends the session-created event first.
  ghost function Run(config: Config, inputs: seq<Input>): SessionState {
    if inputs == [] then Sent(Start(config), 0, SessionCreated, None)
    else Step(Run(config, inputs[..|inputs| - 1]), inputs[|inputs| - 1])
  }
}
