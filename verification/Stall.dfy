// A user turn opened over an active generation: when the session stalls on it, what a stalled
// session still does, and what ends the stall.
module Stall {
  import opened Protocol
  import opened AnswerLease
  import opened TaskLedger
  import opened Session
  import opened WireInvariant
  import opened LedgerInvariant
  import opened BufferInvariant
  import opened SessionInvariant
  import opened SessionSteps
  import opened SessionTheorems

  // The lease is gone but the generation is still active: neither side can make progress.
  predicate Stalled(s: SessionState) {
    s.active.Some? && s.lease.active.None?
  }

  // ---------- which moves lead where ----------

  datatype Phase = Idle | Speaking | Stuck

  function PhaseOf(s: SessionState): Phase {
    if s.active.None? then Idle else if s.lease.active.Some? then Speaking else Stuck
  }

  // What a step asks of the floor, one move at a time.
  datatype Move = Begin | OpenFloor | End | Nothing

  function MoveOf(action: InteractionAction): Move {
    match action
    case StartResponse => Begin
    case Listen => OpenFloor
    case HardYield => End
    case Replan => End
    case _ => Nothing
  }

  function Moved(p: Phase, move: Move): Phase {
    match move
    case Begin => if p == Idle then Speaking else p
    case OpenFloor => if p == Speaking then Stuck else p
    case End => Idle
    case Nothing => p
  }

  function AfterMoves(p: Phase, moves: seq<Move>): Phase {
    if moves == [] then p else Moved(AfterMoves(p, moves[..|moves| - 1]), moves[|moves| - 1])
  }

  function MovesOf(actions: seq<InteractionAction>): seq<Move> {
    seq(|actions|, i requires 0 <= i < |actions| => MoveOf(actions[i]))
  }

  // The moves of one step. A completion ends the generation only while its lease lets it through.
  function StepMoves(s: SessionState, stimulus: Stimulus): seq<Move> {
    if !s.open then []
    else
      match stimulus
      case TranscriptFinal(_) => [Begin]
      case BargeIn(_) => [End]
      case Shutdown => [End]
      case AudioArrived(_, _, _, _, answer) =>
        if s.providerOpen && answer.Decisions? then MovesOf(answer.actions) else []
      case FromProvider(_) => if s.active.Some? && Ends(s, stimulus) then [End] else []
      case _ => []
  }

  ghost function RunMoves(config: Config, inputs: seq<Input>): seq<Move> {
    if inputs == [] then []
    else
      var front := inputs[..|inputs| - 1];
      RunMoves(config, front) + StepMoves(Run(config, front), inputs[|inputs| - 1].stimulus)
  }

  lemma {:induction false} MovesConcat(p: Phase, moves: seq<Move>, more: seq<Move>)
    ensures AfterMoves(p, moves + more) == AfterMoves(AfterMoves(p, moves), more)
    decreases |more|
  {
    if more == [] {
      assert moves + more == moves;
    } else {
      MovesConcat(p, moves, more[..|more| - 1]);
      assert (moves + more)[..|moves + more| - 1] == moves + more[..|more| - 1];
    }
  }

  // One decision over a lease and an active generation that agree.
  lemma ActedMoves(s: SessionState, action: InteractionAction, timeUs: nat)
    requires s.active.Some? && s.lease.active.Some? ==> !s.lease.turnOpen
    ensures PhaseOf(Acted(s, action, timeUs)) == Moved(PhaseOf(s), MoveOf(action))
  {
  }

  lemma {:induction false} DecidedMoves(s: SessionState, actions: seq<InteractionAction>, timeUs: nat)
    requires Inv(s, map[])
    ensures PhaseOf(Decided(s, actions, timeUs)) == AfterMoves(PhaseOf(s), MovesOf(actions))
  {
    hide Core, LedgerOk, Acted;
    if actions != [] {
      var front, last := actions[..|actions| - 1], actions[|actions| - 1];
      assert MovesOf(actions)[..|front|] == MovesOf(front);
      DecidedMoves(s, front, timeUs);
      var t := Decided(s, front, timeUs);
      DecidedOk(s, front, timeUs, 0);
      LeaseClosesTurn(t);
      var tag := if last == HardYield && t.active.Some? then Some(t.active.value.id) else None;
      ActedMoves(Sent(t, timeUs, InteractionDecision(last), tag), last, timeUs);
    }
  }

  lemma LeaseClosesTurn(s: SessionState)
    requires Inv(s, map[])
    ensures s.lease.active.Some? ==> !s.lease.turnOpen
    ensures s.active.Some? && s.lease.active.Some? ==> s.active.value.id == s.lease.active.value.generation
  {
  }

  // ---------- what leaves the floor alone ----------

  // The generation that is active, and since when; its latency plays no part.
  function VoiceOf(active: Option<ActiveGeneration>): Option<(Id, nat)> {
    if active.None? then None else Some((active.value.id, active.value.baseUs))
  }

  predicate SameFloor(s: SessionState, after: SessionState) {
    after.lease == s.lease && VoiceOf(after.active) == VoiceOf(s.active)
  }

  lemma {:induction false} MarksKeepFloor(s: SessionState, timeUs: nat, g: Id, phases: seq<LatencyPhase>)
    ensures SameFloor(s, MarksSent(s, timeUs, g, phases))
  {
    if phases != [] {
      MarksKeepFloor(s, timeUs, g, phases[..|phases| - 1]);
    }
  }

  lemma {:induction false} OutcomesKeepFloor(s: SessionState, timeUs: nat, outcomes: seq<TaskOutcome>, clockMs: nat)
    ensures SameFloor(s, OutcomesSent(s, timeUs, outcomes, clockMs))
  {
    hide Buffered;
    if outcomes != [] {
      OutcomesKeepFloor(s, timeUs, outcomes[..|outcomes| - 1], clockMs);
    }
  }

  lemma {:induction false} AttachedKeepsFloor(s: SessionState, ids: seq<Id>, kind: EvidenceKind, evidence: Id,
                                              timeUs: nat, clockMs: nat)
    ensures SameFloor(s, AttachedToAll(s, ids, kind, evidence, timeUs, clockMs))
  {
    hide Buffered, EvidenceAttached, EvidenceLinked, Linked, Attaches;
    if ids != [] {
      AttachedKeepsFloor(s, ids[..|ids| - 1], kind, evidence, timeUs, clockMs);
    }
  }

  lemma {:induction false} ReplayKeepsFloor(s: SessionState, envelopes: seq<Envelope>)
    ensures SameFloor(s, ReplaySent(s, envelopes))
  {
    if envelopes != [] {
      ReplayKeepsFloor(s, envelopes[..|envelopes| - 1]);
    }
  }

  lemma EventKeepsFloor(s: SessionState, g: Id, event: Event, timeUs: nat, o: Oracle)
    ensures var after := EventAccepted(s, g, event, timeUs, o);
            && after.lease == s.lease
            && (if CompletesGeneration(event) then after.active.None? else VoiceOf(after.active) == VoiceOf(s.active))
  {
    var (sent, emitted) := EventEmitted(s, event, g, timeUs, o.verdict);
    assert SameFloor(s, sent);
    hide EventEmitted, AttachedToAll, OutcomesSent, Arrange;
    var collected := EvidenceCollected(sent, g, emitted, timeUs, o.evidenceOrder, o.clockMs);
    if emitted.Some? && Classify(emitted.value.event).Some? {
      AttachedKeepsFloor(sent, Arrange(o.evidenceOrder, BoundTo(sent.tasks, g)), Classify(emitted.value.event).value,
                         emitted.value.eventId, timeUs, o.clockMs);
    }
    assert SameFloor(s, collected);
    hide EvidenceCollected;
    var ids := Arrange(o.completionOrder, BoundTo(collected.tasks, g));
    OutcomesKeepFloor(collected.(active := None, tasks := Resolved(collected.tasks, ids, Success)), timeUs,
                      CompletedOutcomes(collected.tasks, ids), o.clockMs);
  }

  lemma CheckedKeepsFloor(s: SessionState, offsetUs: nat, output: ProviderOutput, o: Oracle)
    requires s.active.Some?
    ensures var (latency, marks) := Observe(s.active.value.latency, output);
            var timeUs := SaturatingAdd(s.active.value.baseUs, offsetUs);
            var observed := s.(active := Some(s.active.value.(latency := latency)));
            SameFloor(s, DeadlinesEnforced(MarksSent(observed, timeUs, s.active.value.id, marks), timeUs, o.expiryOrder,
                                           o.clockMs))
  {
    var (latency, marks) := Observe(s.active.value.latency, output);
    var timeUs := SaturatingAdd(s.active.value.baseUs, offsetUs);
    var observed := s.(active := Some(s.active.value.(latency := latency)));
    hide Observe, MarksSent, OutcomesSent, Arrange;
    MarksKeepFloor(observed, timeUs, s.active.value.id, marks);
    var marked := MarksSent(observed, timeUs, s.active.value.id, marks);
    var ids := Arrange(o.expiryOrder, Expired(marked.tasks, timeUs / 1000));
    OutcomesKeepFloor(marked.(tasks := Resolved(marked.tasks, ids, Failure)), timeUs,
                      TimedOutOutcomes(marked.tasks, ids), o.clockMs);
  }

  // An emission changes nothing about the floor, unless it is the completion of the leased active
  // generation, which ends it.
  lemma EmissionFloor(s: SessionState, e: Emission, o: Oracle)
    ensures var after := EmissionHandled(s, e, o);
            && after.lease == s.lease
            && VoiceOf(after.active) ==
               if s.active.Some? && Ends(s, FromProvider(e)) then None else VoiceOf(s.active)
  {
    hide Observe, MarksSent, DeadlinesEnforced, EventAccepted;
    if s.active.Some? {
      CheckedKeepsFloor(s, e.mediaOffsetUs, e.output, o);
      var (latency, marks) := Observe(s.active.value.latency, e.output);
      var timeUs := SaturatingAdd(s.active.value.baseUs, e.mediaOffsetUs);
      var observed := s.(active := Some(s.active.value.(latency := latency)));
      var checked := DeadlinesEnforced(MarksSent(observed, timeUs, s.active.value.id, marks), timeUs, o.expiryOrder,
                                       o.clockMs);
      if e.output.ProviderEvent? {
        EventKeepsFloor(checked, s.active.value.id, e.output.event, timeUs, o);
      }
    }
  }

  lemma ResumeKeepsFloor(s: SessionState, timeUs: nat, same: bool, lastSeen: nat, clockMs: nat)
    ensures SameFloor(s, ResumeHandled(s, timeUs, same, lastSeen, clockMs))
  {
    hide Replayed, Purged;
    ReplayKeepsFloor(s.(tasks := Purged(s.tasks, lastSeen, clockMs)), Replayed(s.tasks, lastSeen, clockMs));
  }

  lemma LedgerKeepsFloor(s: SessionState, timeUs: nat, request: TaskRequested, id: Id, reason: Option<string>,
                         clockMs: nat)
    ensures SameFloor(s, TaskRequestHandled(s, timeUs, request, clockMs))
    ensures SameFloor(s, TaskCancelHandled(s, timeUs, id, reason, clockMs))
  {
  }

  // ---------- the phase of every step and run ----------

  lemma AudioMoves(s: SessionState, t: nat, full: bool, report: bool, publish: bool, answer: EngineAnswer)
    requires Inv(s, map[])
    ensures PhaseOf(AudioHandled(s, t, full, report, publish, answer)) ==
            if s.providerOpen && answer.Decisions? then AfterMoves(PhaseOf(s), MovesOf(answer.actions)) else PhaseOf(s)
  {
    hide Inv, Decided, FrameOffered, Observed, MovesOf, AfterMoves;
    if s.providerOpen {
      var observed := Observed(FrameOffered(s, t, full, report), t, publish);
      ObservedKeeps(s, t, full, report, publish);
      if answer.Decisions? {
        ObservedInv(s, t, full, report, publish);
        DecidedMoves(observed, answer.actions, t);
      }
    }
  }

  lemma ObservedInv(s: SessionState, timeUs: nat, full: bool, report: bool, publish: bool)
    requires Inv(s, map[])
    ensures Inv(Observed(FrameOffered(s, timeUs, full, report), timeUs, publish), map[])
  {
    hide Inv, FrameOffered, Observed;
    FrameOfferedOk(s, timeUs, full, report, 0);
    PublishedOk(FrameOffered(s, timeUs, full, report), timeUs, publish, 0);
  }

  // A step takes the phase through exactly its moves.
  lemma StepPhase(s: SessionState, input: Input)
    requires Inv(s, map[])
    ensures PhaseOf(Step(s, input)) == AfterMoves(PhaseOf(s), StepMoves(s, input.stimulus))
  {
    var o := input.oracle;
    hide Inv, TaskRequestHandled, TaskCancelHandled, ResumeHandled, AudioHandled, EmissionHandled;
    match input.stimulus {
      case TaskAsked(t, request) => LedgerKeepsFloor(s, t, request, 0, None, o.clockMs);
      case TaskCancelled(t, id, reason) =>
        LedgerKeepsFloor(s, t, TaskRequested(0, "", None, [], None), id, reason, o.clockMs);
      case ResumeAsked(t, same, lastSeen) => ResumeKeepsFloor(s, t, same, lastSeen, o.clockMs);
      case AudioArrived(t, full, report, publish, answer) => AudioMoves(s, t, full, report, publish, answer);
      case FromProvider(e) => EmissionFloor(s, e, o);
      case _ =>
    }
  }

  lemma {:induction false} RunPhase(config: Config, inputs: seq<Input>)
    ensures PhaseOf(Run(config, inputs)) == AfterMoves(Idle, RunMoves(config, inputs))
  {
    hide Step, StepMoves;
    if inputs != [] {
      var front, last := inputs[..|inputs| - 1], inputs[|inputs| - 1];
      RunPhase(config, front);
      RunOk(config, front);
      hide Inv;
      StepPhase(Run(config, front), last);
      MovesConcat(Idle, RunMoves(config, front), StepMoves(Run(config, front), last.stimulus));
    }
  }

  // ---------- when a run is stalled ----------

  // The floor was opened at move `i` over an active generation, and nothing has ended it since.
  ghost predicate OpenedOver(moves: seq<Move>, i: nat) {
    && i < |moves| && moves[i] == OpenFloor && AfterMoves(Idle, moves[..i]) == Speaking
    && forall j :: i < j < |moves| ==> moves[j] != End
  }

  lemma {:induction false} StuckExactly(moves: seq<Move>)
    ensures AfterMoves(Idle, moves) == Stuck <==> exists i: nat :: OpenedOver(moves, i)
  {
    if moves != [] {
      StuckExactly(moves[..|moves| - 1]);
      OpenedNext(moves);
    }
  }

  lemma OpenedNext(moves: seq<Move>)
    requires moves != []
    ensures var front, last := moves[..|moves| - 1], moves[|moves| - 1];
            (exists i: nat :: OpenedOver(moves, i)) <==>
            (last != End && exists i: nat :: OpenedOver(front, i)) ||
              (last == OpenFloor && AfterMoves(Idle, front) == Speaking)
  {
    hide AfterMoves;
    var front, last := moves[..|moves| - 1], moves[|moves| - 1];
    forall i: nat | i < |front|
      ensures OpenedOver(moves, i) <==> last != End && OpenedOver(front, i)
    {
      assert front[..i] == moves[..i] && front[i] == moves[i];
      assert forall j :: 0 <= j < |front| ==> front[j] == moves[j];
    }
    assert OpenedOver(moves, |front|) <==> last == OpenFloor && AfterMoves(Idle, front) == Speaking;
  }

  // A run is stalled if and only if a Listen was acted on over an active generation that held the
  // lease, and since then nothing has cancelled.
  lemma StalledExactly(config: Config, inputs: seq<Input>)
    ensures Stalled(Run(config, inputs)) <==> exists i: nat :: OpenedOver(RunMoves(config, inputs), i)
  {
    hide Run, RunMoves;
    RunPhase(config, inputs);
    StuckExactly(RunMoves(config, inputs));
  }

  // In every other run an active generation holds the lease, so all it says is accepted.
  lemma AcceptedUnlessStalled(config: Config, inputs: seq<Input>)
    ensures var s := Run(config, inputs);
            s.active.Some? ==> (Accepts(s.lease, s.active.value.id) <==> !Stalled(s))
  {
    hide Run;
    RunOk(config, inputs);
    LeaseClosesTurn(Run(config, inputs));
  }

  // Such a run: a response starts, and the engine answers the next frame with Listen.
  lemma ListenStalls(config: Config, o: Oracle, full: bool, report: bool, publish: bool)
    ensures var listen := AudioArrived(0, full, report, publish, Decisions([Listen]));
            Stalled(Run(config, [Input(TranscriptFinal(0), o), Input(listen, o)]))
  {
    var listen := AudioArrived(0, full, report, publish, Decisions([Listen]));
    var inputs := [Input(TranscriptFinal(0), o), Input(listen, o)];
    assert inputs[..1] == [inputs[0]] && inputs[..1][..0] == [];
    assert Run(config, inputs[..1]) == Started(Run(config, []), 0);
    assert RunMoves(config, inputs[..1]) == [] + [Begin];
    assert MovesOf([Listen]) == [OpenFloor];
    assert StepMoves(Run(config, inputs[..1]), listen) == [OpenFloor];
    assert RunMoves(config, inputs) == [Begin] + [OpenFloor];
    hide Run, RunMoves, Started;
    RunPhase(config, inputs);
    StuckAfter();
  }

  lemma StuckAfter()
    ensures AfterMoves(Idle, [Begin] + [OpenFloor]) == Stuck
  {
    assert ([Begin] + [OpenFloor])[..1] == [Begin] && [Begin][..0] == [];
  }

  // ---------- what ends a stall ----------

  predicate CancelsAt(s: SessionState, input: Input) {
    s.open && Cancels(s, input.stimulus)
  }

  // The stalled generation is given up by exactly the steps that cancel: a barge-in, the end of the
  // session, and a frame on which the engine yields while the provider reads.
  lemma StallEndsExactly(s: SessionState, input: Input)
    requires Inv(s, map[]) && Stalled(s)
    ensures Retired(Step(s, input), s.active.value.id) <==> CancelsAt(s, input)
  {
    StepDraws(s, input);
    if CancelsAt(s, input) {
      EndRetires(s, input);
    } else {
      StallPersists(s, input);
    }
  }

  // ---------- what a stalled session still does ----------

  // `after` is `s` with more said, none of it by any generation, and no commit among it.
  ghost predicate Hushed(s: SessionState, after: SessionState) {
    && after.active == s.active && after.lease.active == s.lease.active
    && |s.log| <= |after.log| && after.log[..|s.log|] == s.log
    && forall i :: |s.log| <= i < |after.log| ==> Tag(after.log[i]).None? && !IsCommit(after.log[i])
  }

  lemma HushedMore(s: SessionState, t: SessionState, after: SessionState, e: Entry)
    requires Hushed(s, t) && after.active == t.active && after.lease.active == t.lease.active
    requires after.log == t.log || (after.log == t.log + [e] && Tag(e).None? && !IsCommit(e))
    ensures Hushed(s, after)
  {
    assert t.log <= after.log;
    assert after.log[..|s.log|] == t.log[..|s.log|];
  }

  lemma HushedSent(s: SessionState, t: SessionState, timeUs: nat, event: Event)
    requires Hushed(s, t)
    ensures Hushed(s, Sent(t, timeUs, event, None))
  {
    HushedMore(s, t, Sent(t, timeUs, event, None), ToClient(Control(Draw(t, timeUs, event, None))));
  }

  lemma {:induction false} HushedDecisions(s: SessionState, t: SessionState, actions: seq<InteractionAction>,
                                           timeUs: nat)
    requires Stalled(s) && Hushed(s, t)
    requires !YieldsAmong(actions)
    ensures Hushed(s, Decided(t, actions, timeUs))
  {
    if actions != [] {
      var front, last := actions[..|actions| - 1], actions[|actions| - 1];
      assert !Yields(last) && !YieldsAmong(front);
      HushedDecisions(s, t, front, timeUs);
      HushedSent(s, Decided(t, front, timeUs), timeUs, InteractionDecision(last));
    }
  }

  lemma {:induction false} HushedReplay(s: SessionState, t: SessionState, envelopes: seq<Envelope>)
    requires Hushed(s, t) && forall e :: e in envelopes ==> e.generation.None?
    ensures Hushed(s, ReplaySent(t, envelopes))
  {
    if envelopes != [] {
      var front, last := envelopes[..|envelopes| - 1], envelopes[|envelopes| - 1];
      assert last in envelopes;
      HushedReplay(s, t, front);
      HushedMore(s, ReplaySent(t, front), ReplaySent(t, envelopes), ToClient(RawText(last, true)));
    }
  }

  lemma HushedAudio(s: SessionState, t: nat, full: bool, report: bool, publish: bool, answer: EngineAnswer)
    requires Stalled(s) && !Cancels(s, AudioArrived(t, full, report, publish, answer))
    ensures Hushed(s, AudioHandled(s, t, full, report, publish, answer))
  {
    assert Hushed(s, s);
    if !s.providerOpen {
      HushedSent(s, s, t, ErrorEvent("provider_closed"));
    } else {
      var offered := FrameOffered(s, t, full, report);
      HushedMore(s, s, Told(s, AudioFrame(t)), ToProvider(AudioFrame(t)));
      HushedSent(s, s, t, ErrorEvent("provider_backpressure"));
      assert Hushed(s, offered);
      hide FrameOffered;
      HushedSent(s, offered, t, EndpointingPrediction);
      HushedSent(s, Sent(offered, t, EndpointingPrediction, None), t, Observation);
      HushedMore(s, offered, Drawn(Drawn(offered)), ToProvider(Close));
      var observed := Observed(offered, t, publish);
      assert Hushed(s, observed);
      hide Observed, Hushed;
      match answer {
        case Decisions(actions) => HushedDecisions(s, observed, actions, t);
        case EngineFailed => HushedSent(s, observed, t, ErrorEvent("runtime_error"));
      }
    }
  }

  lemma HushedResume(s: SessionState, timeUs: nat, same: bool, lastSeen: nat, clockMs: nat)
    requires Inv(s, map[])
    ensures Hushed(s, ResumeHandled(s, timeUs, same, lastSeen, clockMs))
  {
    ReplayedUntagged(s, lastSeen, clockMs);
    hide Inv, Replayed, Purged;
    assert Hushed(s, s);
    HushedSent(s, s, timeUs, ErrorEvent("session_mismatch"));
    var purged := s.(tasks := Purged(s.tasks, lastSeen, clockMs));
    HushedMore(s, s, purged, ToProvider(Close));
    HushedReplay(s, purged, Replayed(s.tasks, lastSeen, clockMs));
    HushedSent(s, ReplaySent(purged, Replayed(s.tasks, lastSeen, clockMs)), timeUs, Pong);
  }

  lemma HushedLedger(s: SessionState, timeUs: nat, request: TaskRequested, id: Id, reason: Option<string>, clockMs: nat)
    ensures Hushed(s, TaskRequestHandled(s, timeUs, request, clockMs))
    ensures Hushed(s, TaskCancelHandled(s, timeUs, id, reason, clockMs))
  {
    assert Hushed(s, s);
    HushedSent(s, s, timeUs, ErrorEvent("task_rejected"));
    var ack := TaskRequestHandled(s, timeUs, request, clockMs);
    HushedMore(s, s, ack, if ack.log == s.log then ToProvider(Close) else ack.log[|ack.log| - 1]);
    var outcome := TaskCancelHandled(s, timeUs, id, reason, clockMs);
    HushedMore(s, s, outcome, if outcome.log == s.log then ToProvider(Close) else outcome.log[|outcome.log| - 1]);
  }

  // With no lease nothing tagged is accepted.
  lemma HushedEmission(s: SessionState, e: Emission, o: Oracle)
    requires Stalled(s)
    ensures Hushed(s, EmissionHandled(s, e, o))
  {
    assert Hushed(s, s);
    if e.generation.None? && e.output.ProviderEvent? {
      HushedSent(s, s, e.mediaOffsetUs, e.output.event);
    }
    hide Accepted, Sent, Hushed;
  }

  lemma HushedRefl(s: SessionState)
    ensures Hushed(s, s)
  {
  }

  lemma HushedPlain(s: SessionState, input: Input)
    requires Stalled(s) && s.open && !Cancels(s, input.stimulus)
    requires !input.stimulus.TaskAsked? && !input.stimulus.TaskCancelled? && !input.stimulus.ResumeAsked?
    requires !input.stimulus.AudioArrived? && !input.stimulus.FromProvider?
    ensures Hushed(s, Step(s, input))
  {
    HushedRefl(s);
    hide Hushed, Sent;
    match input.stimulus {
      case EventRefused(t, code) => HushedSent(s, s, t, ErrorEvent(code));
      case CapabilityOffered(t) => HushedSent(s, s, t, CapabilitySelected);
      case ImageShown(t) => HushedSent(s, s, t, VisualInputRejected);
      case Pinged(t) => HushedSent(s, s, t, Pong);
      case ProviderGone => HushedMore(s, s, s.(providerOpen := false), ToProvider(Close));
      case _ =>
    }
  }

  lemma StallPersists(s: SessionState, input: Input)
    requires Inv(s, map[]) && Stalled(s) && !CancelsAt(s, input)
    ensures Hushed(s, Step(s, input))
  {
    hide Inv, Hushed, TaskRequestHandled, TaskCancelHandled, ResumeHandled, AudioHandled, EmissionHandled;
    var o := input.oracle;
    if !s.open {
      HushedRefl(s);
    } else {
      match input.stimulus {
        case TaskAsked(t, request) => HushedLedger(s, t, request, 0, None, o.clockMs);
        case TaskCancelled(t, id, reason) =>
          HushedLedger(s, t, TaskRequested(0, "", None, [], None), id, reason, o.clockMs);
        case ResumeAsked(t, same, lastSeen) => HushedResume(s, t, same, lastSeen, o.clockMs);
        case AudioArrived(t, full, report, publish, answer) => HushedAudio(s, t, full, report, publish, answer);
        case FromProvider(e) => HushedEmission(s, e, o);
        case _ => HushedPlain(s, input);
      }
    }
  }

  // Nothing in `more` cancels.
  ghost predicate NeverCancels(config: Config, inputs: seq<Input>, more: seq<Input>) {
    forall i :: 0 <= i < |more| ==> !CancelsAt(Run(config, inputs + more[..i]), more[i])
  }

  lemma NeverCancelsFront(config: Config, inputs: seq<Input>, more: seq<Input>)
    requires more != [] && NeverCancels(config, inputs, more)
    ensures var front := more[..|more| - 1];
            NeverCancels(config, inputs, front) && !CancelsAt(Run(config, inputs + front), more[|more| - 1])
  {
    hide Run, CancelsAt;
    assert forall i :: 0 <= i < |more| - 1 ==> more[..|more| - 1][..i] == more[..i];
  }

  // Until something cancels, the same generation stays active, nothing is said for any generation
  // (its completion is refused with everything else), and no new response is committed.
  lemma {:induction false} UserTurnStallsGeneration(config: Config, inputs: seq<Input>, more: seq<Input>)
    requires Stalled(Run(config, inputs)) && NeverCancels(config, inputs, more)
    ensures Hushed(Run(config, inputs), Run(config, inputs + more))
    decreases |more|
  {
    hide Step, CancelsAt, Hushed, Inv, NeverCancels;
    var s := Run(config, inputs);
    if more == [] {
      assert inputs + more == inputs;
      HushedRefl(s);
    } else {
      var front, last := more[..|more| - 1], more[|more| - 1];
      NeverCancelsFront(config, inputs, more);
      UserTurnStallsGeneration(config, inputs, front);
      assert (inputs + more)[..|inputs + more| - 1] == inputs + front;
      var t := Run(config, inputs + front);
      RunOk(config, inputs + front);
      StalledStays(s, t);
      StallPersists(t, last);
      HushedTrans(s, t, Step(t, last));
    }
  }

  lemma StalledStays(s: SessionState, after: SessionState)
    requires Stalled(s) && Hushed(s, after)
    ensures Stalled(after)
  {
  }

  lemma HushedTrans(s: SessionState, t: SessionState, after: SessionState)
    requires Hushed(s, t) && Hushed(t, after)
    ensures Hushed(s, after)
  {
    assert after.log[..|s.log|] == after.log[..|t.log|][..|s.log|];
    forall i | |s.log| <= i < |after.log|
      ensures Tag(after.log[i]).None? && !IsCommit(after.log[i])
    {
      if i < |t.log| {
        assert after.log[i] == after.log[..|t.log|][i];
      }
    }
  }
}
