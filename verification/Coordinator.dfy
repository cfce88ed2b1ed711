// The session coordinator in its own form: an object whose handlers update its fields, with the
// lease manager and the task orchestrator it owns. Each handler is tied to the step function of
// the same event.
module Coordinator {
  import opened Protocol
  import opened AnswerLease
  import opened TaskLedger
  import opened Session

  // The same input up to the orders in which the three hash tables were walked.
  predicate SameButOrders(taken: Input, input: Input) {
    taken == input.(oracle := input.oracle.(expiryOrder := taken.oracle.expiryOrder,
                                            evidenceOrder := taken.oracle.evidenceOrder,
                                            completionOrder := taken.oracle.completionOrder))
  }

  class SessionCoordinator {
    const config: Config
    const leases: AnswerLeaseManager
    const tasks: TaskOrchestrator
    var sequence: nat
    var minted: nat
    var activeGeneration: Option<ActiveGeneration>
    var log: seq<Entry>
    var providerOpen: bool
    var open: bool

    ghost function State(): SessionState
      reads this, leases, tasks
    {
      SessionState(config, sequence, minted, leases.State(), activeGeneration, tasks.State(), log, providerOpen, open)
    }

    constructor (config: Config)
      ensures State() == Start(config)
      ensures fresh(leases) && fresh(tasks)
    {
      this.config := config;
      leases := new AnswerLeaseManager();
      tasks := new TaskOrchestrator();
      sequence, minted, activeGeneration, log := 0, 0, None, [];
      providerOpen, open := true, true;
    }

    // ---------- egress ----------

    method MakeEnvelope(timeUs: nat, event: Event, g: Option<Id>) returns (e: Envelope)
      modifies this`sequence, this`minted
      ensures e == Draw(old(State()), timeUs, event, g)
      ensures State() == Drawn(old(State()))
    {
      sequence := SaturatingAdd(sequence, 1);
      e := Envelope(minted, sequence, timeUs, g, event);
      minted := minted + 1;
    }

    method Send(message: ServerMessage)
      modifies this`log
      ensures log == old(log) + [ToClient(message)]
    {
      log := log + [ToClient(message)];
    }

    method Emit(timeUs: nat, event: Event, g: Option<Id>)
      modifies this`sequence, this`minted, this`log
      ensures State() == Sent(old(State()), timeUs, event, g)
    {
      var e := MakeEnvelope(timeUs, event, g);
      Send(Control(e));
    }

    method SendAndBuffer(timeUs: nat, event: Event, clockMs: nat)
      modifies this`sequence, this`minted, this`log, tasks
      ensures State() == SentAndBuffered(old(State()), timeUs, event, clockMs)
    {
      var e := MakeEnvelope(timeUs, event, None);
      var added := tasks.BufferOutbound(e.sequence, e.eventId, e, clockMs);
      Send(RawText(e, false));
    }

    // `delivered` is false when the provider has dropped its input channel.
    method Tell(input: ProviderInput) returns (delivered: bool)
      modifies this`log
      ensures delivered == providerOpen
      ensures State() == Told(old(State()), input)
    {
      if providerOpen {
        log := log + [ToProvider(input)];
      }
      delivered := providerOpen;
    }

    method EmitPendingOutcomes(timeUs: nat, outcomes: seq<TaskOutcome>, clockMs: nat)
      modifies this`sequence, this`minted, this`log, tasks
      ensures State() == OutcomesSent(old(State()), timeUs, outcomes, clockMs)
    {
      for i := 0 to |outcomes|
        invariant State() == OutcomesSent(old(State()), timeUs, outcomes[..i], clockMs)
      {
        assert outcomes[..i + 1][..i] == outcomes[..i];
        SendAndBuffer(timeUs, TaskOutcomeEvent(outcomes[i]), clockMs);
      }
      assert outcomes[..|outcomes|] == outcomes;
    }

    // ---------- evidence ----------

    method EmitEvidenceLink(timeUs: nat, link: EvidenceLink, clockMs: nat)
      modifies this`sequence, this`minted, this`log, tasks
      ensures State() == LinkSent(old(State()), timeUs, link, clockMs)
    {
      var inserted := tasks.LinkEvidence(link);
      if !inserted {
        return;
      }
      SendAndBuffer(timeUs, EvidenceLinkEvent(link), clockMs);
    }

    method AttachEvidenceToGeneration(g: Id, emitted: Option<Emitted>, timeUs: nat, clockMs: nat)
      returns (ghost order: seq<Id>)
      modifies this`sequence, this`minted, this`log, tasks
      ensures State() == EvidenceCollected(old(State()), g, emitted, timeUs, order, clockMs)
    {
      order := [];
      if emitted.None? {
        return;
      }
      var kind := Classify(emitted.value.event);
      if kind.None? {
        return;
      }
      var ids := tasks.TaskIdsForGeneration(g);
      order := ids;
      for i := 0 to |ids|
        invariant State() == AttachedToAll(old(State()), ids[..i], kind.value, emitted.value.eventId, timeUs, clockMs)
      {
        assert ids[..i + 1][..i] == ids[..i];
        var attached := tasks.AttachEvidence(ids[i], kind.value, emitted.value.eventId);
        if attached {
          EmitEvidenceLink(timeUs, EvidenceLink(ids[i], emitted.value.eventId, TaskProof, 1.0), clockMs);
        }
      }
      assert ids[..|ids|] == ids;
    }

    // ---------- responses ----------

    method BeginGeneration(timeUs: nat) returns (g: Id, version: nat)
      modifies this`minted, this`activeGeneration, leases, tasks
      ensures State() == Begun(old(State()), timeUs)
      ensures g == old(minted) && version == State().lease.version
    {
      g := minted;
      minted := minted + 1;
      leases.Issue(g);
      version := leases.active.value.conversationVersion;
      var bound := tasks.BindPendingToGeneration(g);
      activeGeneration := Some(ActiveGeneration(g, timeUs, FRESH_TRACKER));
    }

    method StartResponse(timeUs: nat)
      modifies this, leases, tasks
      ensures State() == Started(old(State()), timeUs)
    {
      if activeGeneration.Some? {
        return;
      }
      var g, version := BeginGeneration(timeUs);
      Emit(timeUs, LatencyMark(ResponseCommitted), Some(g));
      var delivered := Tell(CommitResponse(g, version, timeUs));
      if !delivered {
        Emit(timeUs, ErrorEvent("provider_closed"), None);
      }
    }

    method CancelResponse(action: InteractionAction, timeUs: nat)
      modifies this, leases
      ensures State() == Interrupted(old(State()), action, timeUs)
    {
      if activeGeneration.None? {
        return;
      }
      var g := activeGeneration.value.id;
      activeGeneration := None;
      Emit(timeUs, LatencyMark(CancelRequested), Some(g));
      leases.Revoke(g);
      var delivered := Tell(CancelGeneration(g));
      if action == HardYield {
        Emit(timeUs, OutputAudioCancel(timeUs), Some(g));
      }
    }

    method HandleAction(action: InteractionAction, timeUs: nat)
      modifies this, leases, tasks
      ensures State() == Acted(old(State()), action, timeUs)
    {
      match action {
        case Listen => leases.BeginUserTurn();
        case StartResponse => StartResponse(timeUs);
        case HardYield => CancelResponse(action, timeUs);
        case Replan => CancelResponse(action, timeUs);
        case _ =>
      }
    }

    method ApplyDecisions(actions: seq<InteractionAction>, timeUs: nat)
      modifies this, leases, tasks
      ensures State() == Decided(old(State()), actions, timeUs)
    {
      for i := 0 to |actions|
        invariant State() == Decided(old(State()), actions[..i], timeUs)
      {
        assert actions[..i + 1][..i] == actions[..i];
        var tag := if actions[i] == HardYield && activeGeneration.Some? then Some(activeGeneration.value.id) else None;
        Emit(timeUs, InteractionDecision(actions[i]), tag);
        HandleAction(actions[i], timeUs);
      }
      assert actions[..|actions|] == actions;
    }

    // ---------- client events ----------

    method HandleTaskRequested(timeUs: nat, request: TaskRequested, clockMs: nat)
      modifies this`sequence, this`minted, this`log, tasks
      ensures State() == TaskRequestHandled(old(State()), timeUs, request, clockMs)
    {
      var nowMs := timeUs / 1000;
      var ack := tasks.Admit(request, Some(config.providerId), nowMs, config.defaultDeadlineMs);
      if ack.None? {
        Emit(timeUs, ErrorEvent("task_rejected"), None);
        return;
      }
      SendAndBuffer(timeUs, TaskAcknowledgedEvent(ack.value), clockMs);
    }

    method HandleTaskCancel(timeUs: nat, id: Id, reason: Option<string>, clockMs: nat)
      modifies this`sequence, this`minted, this`log, tasks
      ensures State() == TaskCancelHandled(old(State()), timeUs, id, reason, clockMs)
    {
      var outcome := tasks.CancelTask(id, reason);
      if outcome.None? {
        return;
      }
      SendAndBuffer(timeUs, TaskOutcomeEvent(outcome.value), clockMs);
    }

    method HandleSessionResume(timeUs: nat, sameSession: bool, lastSeen: nat, clockMs: nat)
      modifies this`sequence, this`minted, this`log, tasks
      ensures State() == ResumeHandled(old(State()), timeUs, sameSession, lastSeen, clockMs)
    {
      if !sameSession {
        Emit(timeUs, ErrorEvent("session_mismatch"), None);
        return;
      }
      var replay := tasks.ReplayAfter(lastSeen, clockMs);
      ghost var purged := State();
      for i := 0 to |replay|
        invariant State() == ReplaySent(purged, replay[..i])
      {
        assert replay[..i + 1][..i] == replay[..i];
        Send(RawText(replay[i], true));
      }
      assert replay[..|replay|] == replay;
      Emit(timeUs, Pong, None);
    }

    method OfferFrame(timeUs: nat, queueFull: bool, reportDrop: bool)
      requires providerOpen
      modifies this`sequence, this`minted, this`log
      ensures State() == FrameOffered(old(State()), timeUs, queueFull, reportDrop)
    {
      if !queueFull {
        var delivered := Tell(AudioFrame(timeUs));
      } else if reportDrop {
        Emit(timeUs, ErrorEvent("provider_backpressure"), None);
      }
    }

    method PublishObservation(timeUs: nat, publish: bool)
      modifies this`sequence, this`minted, this`log
      ensures State() == Observed(old(State()), timeUs, publish)
    {
      var prediction := MakeEnvelope(timeUs, EndpointingPrediction, None);
      if publish {
        Send(Control(prediction));
      }
      var observation := MakeEnvelope(timeUs, Observation, None);
      if publish {
        Send(Control(observation));
      }
    }

    method HandleAudioFrame(timeUs: nat, queueFull: bool, reportDrop: bool, publish: bool, answer: EngineAnswer)
      modifies this, leases, tasks
      ensures State() == AudioHandled(old(State()), timeUs, queueFull, reportDrop, publish, answer)
    {
      if !providerOpen {
        Emit(timeUs, ErrorEvent("provider_closed"), None);
        return;
      }
      OfferFrame(timeUs, queueFull, reportDrop);
      PublishObservation(timeUs, publish);
      match answer {
        case Decisions(actions) => ApplyDecisions(actions, timeUs);
        case EngineFailed => Emit(timeUs, ErrorEvent("runtime_error"), None);
      }
    }

    // ---------- provider emissions ----------

    method EmitProviderEvent(event: Event, g: Id, timeUs: nat) returns (emitted: Option<Emitted>)
      modifies this`sequence, this`minted, this`log
      ensures State() == Sent(old(State()), timeUs, event, Some(g))
      ensures emitted == Some(Emitted(old(minted), event))
    {
      emitted := Some(Emitted(minted, event));
      Emit(timeUs, event, Some(g));
    }

    method ApplySafetyToDelta(event: Event, g: Id, timeUs: nat,
                              verdict: SafetyVerdict) returns (emitted: Option<Emitted>)
      requires config.safetyEnabled && event.OutputTextDelta?
      modifies this`sequence, this`minted, this`log
      ensures (State(), emitted) == EventEmitted(old(State()), event, g, timeUs, verdict)
    {
      hide Sent, Told;
      match verdict {
        case Hold =>
          emitted := None;
        case Release(text) =>
          if text == "" {
            emitted := None;
          } else {
            emitted := EmitProviderEvent(OutputTextDelta(text), g, timeUs);
          }
        case Intervene(text) =>
          emitted := EmitProviderEvent(OutputTextFinal(text), g, timeUs);
          var delivered := Tell(CancelGeneration(g));
      }
    }

    method ApplySafetyToEvent(event: Event, g: Id, timeUs: nat,
                              verdict: SafetyVerdict) returns (emitted: Option<Emitted>)
      modifies this`sequence, this`minted, this`log
      ensures (State(), emitted) == EventEmitted(old(State()), event, g, timeUs, verdict)
    {
      hide Sent, Told;
      if !config.safetyEnabled {
        emitted := EmitProviderEvent(event, g, timeUs);
        return;
      }
      match event {
        case OutputTextDelta(_) =>
          emitted := ApplySafetyToDelta(event, g, timeUs, verdict);
        case OutputTextFinal(text) =>
          var released := if verdict.Hold? then text else verdict.text;
          emitted := EmitProviderEvent(OutputTextFinal(released), g, timeUs);
        case _ =>
          emitted := EmitProviderEvent(event, g, timeUs);
      }
    }

    method EnforceDeadlines(timeUs: nat, clockMs: nat) returns (ghost order: seq<Id>)
      modifies this`sequence, this`minted, this`log, tasks
      ensures State() == DeadlinesEnforced(old(State()), timeUs, order, clockMs)
    {
      var outcomes := tasks.ExpireDeadlines(timeUs / 1000);
      order := TaskIds(outcomes);
      EmitPendingOutcomes(timeUs, outcomes, clockMs);
    }

    method FinishGeneration(g: Id, timeUs: nat, clockMs: nat) returns (ghost order: seq<Id>)
      modifies this`sequence, this`minted, this`log, this`activeGeneration, tasks
      ensures State() == Finished(old(State()), g, timeUs, order, clockMs)
    {
      activeGeneration := None;
      var outcomes := tasks.CompleteTasksForGeneration(g);
      order := TaskIds(outcomes);
      EmitPendingOutcomes(timeUs, outcomes, clockMs);
    }

    method SendLatencyMarks(timeUs: nat, g: Id, marks: seq<LatencyPhase>)
      modifies this`sequence, this`minted, this`log
      ensures State() == MarksSent(old(State()), timeUs, g, marks)
    {
      for i := 0 to |marks|
        invariant State() == MarksSent(old(State()), timeUs, g, marks[..i])
      {
        assert marks[..i + 1][..i] == marks[..i];
        Emit(timeUs, LatencyMark(marks[i]), Some(g));
      }
      assert marks[..|marks|] == marks;
    }

    method SendMedia(timeUs: nat, g: Id, full: bool)
      modifies this`sequence, this`log
      ensures State() == MediaSent(old(State()), timeUs, g, full)
    {
      sequence := SaturatingAdd(sequence, 1);
      if !full {
        Send(Media(sequence, timeUs, g));
      }
    }

    // `choices` supplies the clock, the safety verdict and the media queue; the hash-table orders
    // met on the way come back in `o`.
    method HandleProviderEmission(e: Emission, clockMs: nat, verdict: SafetyVerdict, audioWithheld: bool,
                                  mediaFull: bool)
      returns (ghost o: Oracle)
      modifies this, tasks
      ensures o == Oracle(clockMs, o.expiryOrder, o.evidenceOrder, o.completionOrder, verdict, audioWithheld, mediaFull)
      ensures State() == EmissionHandled(old(State()), e, o)
    {
      o := Oracle(clockMs, [], [], [], verdict, audioWithheld, mediaFull);
      if e.generation.None? {
        if e.output.ProviderEvent? {
          Emit(e.mediaOffsetUs, e.output.event, None);
        }
        return;
      }
      var g := e.generation.value;
      if !(leases.active.Some? && leases.active.value.generation == g) {
        return;
      }
      if activeGeneration.None? || activeGeneration.value.id != g {
        return;
      }
      o := HandleAccepted(g, e.mediaOffsetUs, e.output, clockMs, verdict, audioWithheld, mediaFull);
    }

    method HandleAccepted(g: Id, offsetUs: nat, output: ProviderOutput, clockMs: nat, verdict: SafetyVerdict,
                          audioWithheld: bool, mediaFull: bool)
      returns (ghost o: Oracle)
      requires activeGeneration.Some?
      modifies this, tasks
      ensures o == Oracle(clockMs, o.expiryOrder, o.evidenceOrder, o.completionOrder, verdict, audioWithheld, mediaFull)
      ensures State() == Accepted(old(State()), g, offsetUs, output, o)
    {
      hide MarksSent, DeadlinesEnforced, EventEmitted, EvidenceCollected, Finished, MediaSent, Observe;
      o := Oracle(clockMs, [], [], [], verdict, audioWithheld, mediaFull);
      var (latency, marks) := Observe(activeGeneration.value.latency, output);
      var timeUs := SaturatingAdd(activeGeneration.value.baseUs, offsetUs);
      activeGeneration := Some(activeGeneration.value.(latency := latency));
      SendLatencyMarks(timeUs, g, marks);
      ghost var expiryOrder := EnforceDeadlines(timeUs, clockMs);
      o := o.(expiryOrder := expiryOrder);
      match output {
        case ProviderEvent(event) =>
          var emitted := ApplySafetyToEvent(event, g, timeUs, verdict);
          ghost var evidenceOrder := AttachEvidenceToGeneration(g, emitted, timeUs, clockMs);
          o := o.(evidenceOrder := evidenceOrder);
          if CompletesGeneration(event) {
            ghost var completionOrder := FinishGeneration(g, timeUs, clockMs);
            o := o.(completionOrder := completionOrder);
          }
        case Audio =>
          if config.safetyEnabled && audioWithheld {
            return;
          }
          SendMedia(timeUs, g, mediaFull);
      }
    }

    method Shut()
      modifies this
      ensures State() == Closed(old(State()))
    {
      if activeGeneration.Some? {
        var g := activeGeneration.value.id;
        activeGeneration := None;
        var delivered := Tell(CancelGeneration(g));
      }
      var delivered := Tell(Close);
      open := false;
    }

    // ---------- the session loop ----------

    method Dispatch(input: Input) returns (ghost taken: Input)
      requires open
      modifies this, leases, tasks
      ensures SameButOrders(taken, input)
      ensures State() == Step(old(State()), taken)
    {
      hide Sent, Started, Interrupted, AudioHandled, EmissionHandled, Closed, TaskRequestHandled, TaskCancelHandled,
        ResumeHandled;
      taken := input;
      var clockMs := input.oracle.clockMs;
      match input.stimulus {
        case Quiet =>
        case EventRefused(t, code) => Emit(t, ErrorEvent(code), None);
        case CapabilityOffered(t) => Emit(t, CapabilitySelected, None);
        case ImageShown(t) => Emit(t, VisualInputRejected, None);
        case Pinged(t) => Emit(t, Pong, None);
        case TaskAsked(t, request) => HandleTaskRequested(t, request, clockMs);
        case TaskCancelled(t, id, reason) => HandleTaskCancel(t, id, reason, clockMs);
        case ResumeAsked(t, same, lastSeen) => HandleSessionResume(t, same, lastSeen, clockMs);
        case TranscriptFinal(t) => StartResponse(t);
        case BargeIn(t) => CancelResponse(HardYield, t);
        case AudioArrived(t, full, report, publish, answer) => HandleAudioFrame(t, full, report, publish, answer);
        case FromProvider(e) =>
          var i := input.oracle;
          ghost var o := HandleProviderEmission(e, clockMs, i.verdict, i.audioWithheld, i.mediaFull);
          taken := Input(input.stimulus, o);
        case ProviderGone => providerOpen := false;
        case Shutdown => Shut();
      }
    }
  }

  // One whole session over the inputs the two channels deliver: announce, then step until the loop
  // ends. `taken` records each input with the hash-table orders that were met.
  method RunSession(config: Config, inputs: seq<Input>) returns (session: SessionCoordinator, ghost taken: seq<Input>)
    ensures session.State() == Run(config, taken)
    ensures |taken| <= |inputs| && (|taken| < |inputs| ==> !session.open)
    ensures forall i :: 0 <= i < |taken| ==> SameButOrders(taken[i], inputs[i])
  {
    hide Step, Sent;
    session := new SessionCoordinator(config);
    session.Emit(0, SessionCreated, None);
    taken := [];
    var i := 0;
    while i < |inputs| && session.open
      invariant 0 <= i == |taken| <= |inputs|
      invariant fresh(session) && fresh(session.leases) && fresh(session.tasks)
      invariant session.State() == Run(config, taken)
      invariant forall k :: 0 <= k < i ==> SameButOrders(taken[k], inputs[k])
    {
      ghost var one := session.Dispatch(inputs[i]);
      assert (taken + [one])[..|taken|] == taken;
      taken := taken + [one];
      i := i + 1;
    }
  }
}
