// Who writes what: the kind of every entry on the two channels, and the kinds each handler of the
// session may add.
module Egress {
  import opened Protocol
  import opened AnswerLease
  import opened TaskLedger
  import opened Session
  import opened WireInvariant
  import opened LedgerInvariant

  // ---------- kinds of entries ----------

  datatype Kind =
    | Duplicate      // a copy out of the resume buffer
    | Receipt        // a task's acknowledgement
    | Citation       // an evidence link
    | Timeout        // an outcome whose error is an elapsed deadline
    | Verdict        // any other outcome
    | Mark           // a latency mark of a generation
    | Turn           // a decision or an audio cut-off for a generation
    | Speech         // any other event of a generation
    | Sound          // audio of a generation
    | Note           // anything of no generation
    | Commit         // to the provider, from here on
    | Cancellation
    | Feed
    | Ending

  function RecordKind(event: Event): Kind {
    match event
    case TaskAcknowledgedEvent(_) => Receipt
    case TaskOutcomeEvent(o) => if o.error.DeadlineElapsed? then Timeout else Verdict
    case _ => Citation
  }

  function ControlKind(envelope: Envelope): Kind {
    if envelope.generation.None? then Note
    else
      match envelope.event
      case LatencyMark(_) => Mark
      case OutputAudioCancel(_) => Turn
      case InteractionDecision(_) => Turn
      case _ => Speech
  }

  function KindOf(e: Entry): Kind {
    match e
    case ToProvider(AudioFrame(_)) => Feed
    case ToProvider(CommitResponse(_, _, _)) => Commit
    case ToProvider(CancelGeneration(_)) => Cancellation
    case ToProvider(Close) => Ending
    case ToClient(RawText(envelope, replay)) => if replay then Duplicate else RecordKind(envelope.event)
    case ToClient(Media(_, _, _)) => Sound
    case ToClient(Control(envelope)) => ControlKind(envelope)
  }

  // ---------- what a handler adds ----------

  // No task is new, and those that are left have their intents and deadlines.
  ghost predicate NoneAdmitted(t: TaskState, after: TaskState) {
    forall id :: id in after.active ==>
      id in t.active && after.active[id].intent == t.active[id].intent &&
      after.active[id].deadlineMs == t.active[id].deadlineMs
  }

  // The log of `after` is that of `s` with entries of these kinds more.
  ghost predicate Says(s: SessionState, after: SessionState, kinds: set<Kind>) {
    && |s.log| <= |after.log| && after.log[..|s.log|] == s.log
    && forall i :: |s.log| <= i < |after.log| ==> KindOf(after.log[i]) in kinds
  }

  ghost predicate Adds(s: SessionState, after: SessionState, kinds: set<Kind>) {
    Says(s, after, kinds) && NoneAdmitted(s.tasks, after.tasks)
  }

  lemma AddsTrans(a: SessionState, b: SessionState, c: SessionState, kinds: set<Kind>, more: set<Kind>)
    requires Adds(a, b, kinds) && Adds(b, c, more)
    ensures Adds(a, c, kinds + more)
  {
    assert c.log[..|a.log|] == c.log[..|b.log|][..|a.log|];
    forall i | |a.log| <= i < |c.log| ensures KindOf(c.log[i]) in kinds + more {
      if i < |b.log| {
        assert c.log[i] == c.log[..|b.log|][i];
      }
    }
    hide KindOf;
  }

  lemma AddsWider(s: SessionState, after: SessionState, kinds: set<Kind>, wider: set<Kind>)
    requires Adds(s, after, kinds) && kinds <= wider
    ensures Adds(s, after, wider)
  {
    hide KindOf, NoneAdmitted;
  }

  lemma AddsNothing(s: SessionState, after: SessionState, kinds: set<Kind>)
    requires after.log == s.log && NoneAdmitted(s.tasks, after.tasks)
    ensures Adds(s, after, kinds)
  {
    hide KindOf, NoneAdmitted;
    assert s.log[..|s.log|] == s.log;
  }

  lemma AddsOne(s: SessionState, after: SessionState, e: Entry, kinds: set<Kind>)
    requires after.log == s.log + [e] && KindOf(e) in kinds && NoneAdmitted(s.tasks, after.tasks)
    ensures Adds(s, after, kinds)
  {
    hide KindOf, NoneAdmitted;
  }

  // An entry of another kind was written after, or before.
  lemma KindComesAfter(s: SessionState, t: SessionState, after: SessionState, kinds: set<Kind>, i: nat)
    requires Says(s, t, kinds) && t.log <= after.log
    requires |s.log| <= i < |after.log| && KindOf(after.log[i]) !in kinds
    ensures |t.log| <= i
  {
    hide KindOf;
    forall j | |s.log| <= j < |t.log|
      ensures KindOf(after.log[j]) in kinds
    {
      assert after.log[j] == t.log[j];
    }
  }

  lemma KindComesBefore(t: SessionState, after: SessionState, kinds: set<Kind>, i: nat)
    requires Says(t, after, kinds) && i < |after.log| && KindOf(after.log[i]) !in kinds
    ensures i < |t.log| && after.log[i] == t.log[i] && t.log <= after.log
  {
    hide KindOf;
    assert i < |t.log|;
    assert after.log[i] == after.log[..|t.log|][i];
  }

  lemma SameTasks(t: TaskState)
    ensures NoneAdmitted(t, t)
  {
  }

  lemma SentAdds(s: SessionState, timeUs: nat, event: Event, g: Option<Id>, kinds: set<Kind>)
    requires ControlKind(Draw(s, timeUs, event, g)) in kinds
    ensures Adds(s, Sent(s, timeUs, event, g), kinds)
  {
    SameTasks(s.tasks);
    hide NoneAdmitted;
    AddsOne(s, Sent(s, timeUs, event, g), ToClient(Control(Draw(s, timeUs, event, g))), kinds);
  }

  lemma BufferedAdds(s: SessionState, timeUs: nat, event: Event, clockMs: nat, kinds: set<Kind>)
    requires RecordKind(event) in kinds
    ensures Adds(s, SentAndBuffered(s, timeUs, event, clockMs), kinds)
  {
    var after := SentAndBuffered(s, timeUs, event, clockMs);
    assert after.tasks.active == s.tasks.active;
    assert NoneAdmitted(s.tasks, after.tasks);
    hide NoneAdmitted;
    AddsOne(s, after, ToClient(RawText(Draw(s, timeUs, event, None), false)), kinds);
  }

  lemma ToldAdds(s: SessionState, input: ProviderInput, kinds: set<Kind>)
    requires KindOf(ToProvider(input)) in kinds
    ensures Adds(s, Told(s, input), kinds)
  {
    SameTasks(s.tasks);
    hide NoneAdmitted;
    if s.providerOpen {
      AddsOne(s, Told(s, input), ToProvider(input), kinds);
    } else {
      AddsNothing(s, s, kinds);
    }
  }

  lemma {:induction false} MarksAdd(s: SessionState, timeUs: nat, g: Id, phases: seq<LatencyPhase>)
    ensures Adds(s, MarksSent(s, timeUs, g, phases), {Mark})
  {
    hide Adds, Sent;
    if phases == [] {
      SameTasks(s.tasks);
      AddsNothing(s, s, {Mark});
    } else {
      var t := MarksSent(s, timeUs, g, phases[..|phases| - 1]);
      MarksAdd(s, timeUs, g, phases[..|phases| - 1]);
      SentAdds(t, timeUs, LatencyMark(phases[|phases| - 1]), Some(g), {Mark});
      AddsTrans(s, t, MarksSent(s, timeUs, g, phases), {Mark}, {Mark});
      assert {Mark} + {Mark} == {Mark};
    }
  }

  lemma {:induction false} OutcomesAdd(s: SessionState, timeUs: nat, outcomes: seq<TaskOutcome>, clockMs: nat,
                                       kind: Kind)
    requires forall o :: o in outcomes ==> RecordKind(TaskOutcomeEvent(o)) == kind
    ensures Adds(s, OutcomesSent(s, timeUs, outcomes, clockMs), {kind})
  {
    hide Adds, SentAndBuffered;
    if outcomes == [] {
      SameTasks(s.tasks);
      AddsNothing(s, s, {kind});
    } else {
      var t := OutcomesSent(s, timeUs, outcomes[..|outcomes| - 1], clockMs);
      OutcomesAdd(s, timeUs, outcomes[..|outcomes| - 1], clockMs, kind);
      BufferedAdds(t, timeUs, TaskOutcomeEvent(outcomes[|outcomes| - 1]), clockMs, {kind});
      AddsTrans(s, t, OutcomesSent(s, timeUs, outcomes, clockMs), {kind}, {kind});
      assert {kind} + {kind} == {kind};
    }
  }

  lemma AttachedAdds(s: SessionState, id: Id, kind: EvidenceKind, evidence: Id, timeUs: nat, clockMs: nat)
    ensures Adds(s, AttachedTo(s, id, kind, evidence, timeUs, clockMs), {Citation})
  {
    var attached := s.(tasks := EvidenceAttached(s.tasks, id, kind, evidence));
    assert NoneAdmitted(s.tasks, attached.tasks);
    hide EvidenceAttached;
    var link := EvidenceLink(id, evidence, TaskProof, 1.0);
    var linked := attached.(tasks := EvidenceLinked(attached.tasks, link));
    assert linked.tasks.active == attached.tasks.active;
    assert NoneAdmitted(s.tasks, linked.tasks);
    SameTasks(s.tasks);
    hide NoneAdmitted, EvidenceLinked, Linked, Adds, SentAndBuffered, Attaches;
    AddsNothing(s, s, {Citation});
    AddsNothing(s, attached, {Citation});
    AddsNothing(s, linked, {Citation});
    BufferedAdds(linked, timeUs, EvidenceLinkEvent(link), clockMs, {Citation});
    AddsTrans(s, linked, SentAndBuffered(linked, timeUs, EvidenceLinkEvent(link), clockMs), {Citation}, {Citation});
    assert {Citation} + {Citation} == {Citation};
  }

  lemma {:induction false} AttachedToAllAdds(s: SessionState, ids: seq<Id>, kind: EvidenceKind, evidence: Id,
                                             timeUs: nat,
                                             clockMs: nat)
    ensures Adds(s, AttachedToAll(s, ids, kind, evidence, timeUs, clockMs), {Citation})
  {
    hide Adds, AttachedTo;
    if ids == [] {
      SameTasks(s.tasks);
      AddsNothing(s, s, {Citation});
    } else {
      var t := AttachedToAll(s, ids[..|ids| - 1], kind, evidence, timeUs, clockMs);
      AttachedToAllAdds(s, ids[..|ids| - 1], kind, evidence, timeUs, clockMs);
      AttachedAdds(t, ids[|ids| - 1], kind, evidence, timeUs, clockMs);
      AddsTrans(s, t, AttachedToAll(s, ids, kind, evidence, timeUs, clockMs), {Citation}, {Citation});
      assert {Citation} + {Citation} == {Citation};
    }
  }

  // ---------- the floor ----------

  lemma BegunAdds(s: SessionState, timeUs: nat, kinds: set<Kind>)
    ensures Adds(s, Begun(s, timeUs), kinds)
  {
    assert NoneAdmitted(s.tasks, Begun(s, timeUs).tasks);
    hide NoneAdmitted, Adds;
    AddsNothing(s, Begun(s, timeUs), kinds);
  }

  lemma StartedAdds(s: SessionState, timeUs: nat)
    ensures Adds(s, Started(s, timeUs), {Mark, Commit, Note})
  {
    var kinds := {Mark, Commit, Note};
    if s.active.Some? {
      SameTasks(s.tasks);
      hide NoneAdmitted, Begun, Adds, Sent;
      AddsNothing(s, s, kinds);
    } else {
      hide NoneAdmitted, Begun, Adds, Sent;
      var g := s.minted;
      var begun := Begun(s, timeUs);
      BegunAdds(s, timeUs, kinds);
      var marked := Sent(begun, timeUs, LatencyMark(ResponseCommitted), Some(g));
      SentAdds(begun, timeUs, LatencyMark(ResponseCommitted), Some(g), kinds);
      ToldAdds(marked, CommitResponse(g, marked.lease.version, timeUs), kinds);
      SentAdds(marked, timeUs, ErrorEvent("provider_closed"), None, kinds);
      AddsTrans(s, begun, marked, kinds, kinds);
      assert kinds + kinds == kinds;
      AddsTrans(s, marked, Started(s, timeUs), kinds, kinds);
    }
  }

  lemma InterruptedAdds(s: SessionState, action: InteractionAction, timeUs: nat)
    ensures Adds(s, Interrupted(s, action, timeUs), {Mark, Cancellation, Turn})
  {
    var kinds := {Mark, Cancellation, Turn};
    SameTasks(s.tasks);
    hide NoneAdmitted, Adds;
    AddsNothing(s, s, kinds);
    if s.active.Some? {
      var g := s.active.value.id;
      var quiet := s.(active := None);
      var marked := Sent(quiet, timeUs, LatencyMark(CancelRequested), Some(g));
      var withdrawn := marked.(lease := Withdrawn(marked.lease, g));
      var told := Told(withdrawn, CancelGeneration(g));
      AddsNothing(s, quiet, kinds);
      SentAdds(quiet, timeUs, LatencyMark(CancelRequested), Some(g), kinds);
      AddsTrans(s, quiet, marked, kinds, kinds);
      assert kinds + kinds == kinds;
      SameTasks(marked.tasks);
      AddsNothing(marked, withdrawn, kinds);
      AddsTrans(s, marked, withdrawn, kinds, kinds);
      ToldAdds(withdrawn, CancelGeneration(g), kinds);
      AddsTrans(s, withdrawn, told, kinds, kinds);
      SentAdds(told, timeUs, OutputAudioCancel(timeUs), Some(g), kinds);
      hide Sent, Told;
      AddsTrans(s, told, Sent(told, timeUs, OutputAudioCancel(timeUs), Some(g)), kinds, kinds);
    }
  }

  function DecisionKinds(): set<Kind> {
    {Mark, Commit, Note, Cancellation, Turn}
  }

  lemma ActedAdds(s: SessionState, action: InteractionAction, timeUs: nat)
    ensures Adds(s, Acted(s, action, timeUs), DecisionKinds())
  {
    SameTasks(s.tasks);
    StartedAdds(s, timeUs);
    InterruptedAdds(s, action, timeUs);
    hide Adds, Started, Interrupted, NoneAdmitted;
    AddsNothing(s, s, DecisionKinds());
    AddsNothing(s, s.(lease := TurnOpened(s.lease)), DecisionKinds());
    AddsWider(s, Started(s, timeUs), {Mark, Commit, Note}, DecisionKinds());
    AddsWider(s, Interrupted(s, action, timeUs), {Mark, Cancellation, Turn}, DecisionKinds());
  }

  lemma {:induction false} DecidedAdds(s: SessionState, actions: seq<InteractionAction>, timeUs: nat)
    ensures Adds(s, Decided(s, actions, timeUs), DecisionKinds())
  {
    var kinds := DecisionKinds();
    if actions == [] {
      SameTasks(s.tasks);
      hide Adds, NoneAdmitted;
      AddsNothing(s, s, kinds);
    } else {
      var t := Decided(s, actions[..|actions| - 1], timeUs);
      var action := actions[|actions| - 1];
      var tag := if action == HardYield && t.active.Some? then Some(t.active.value.id) else None;
      var sent := Sent(t, timeUs, InteractionDecision(action), tag);
      SentAdds(t, timeUs, InteractionDecision(action), tag, kinds);
      hide Adds, Acted, Sent;
      DecidedAdds(s, actions[..|actions| - 1], timeUs);
      AddsTrans(s, t, sent, kinds, kinds);
      assert kinds + kinds == kinds;
      ActedAdds(sent, action, timeUs);
      AddsTrans(s, sent, Acted(sent, action, timeUs), kinds, kinds);
    }
  }

  // ---------- audio from the client ----------

  lemma OfferedAdds(s: SessionState, timeUs: nat, full: bool, report: bool)
    ensures Adds(s, FrameOffered(s, timeUs, full, report), {Feed, Note})
  {
    SameTasks(s.tasks);
    AddsNothing(s, s, {Feed, Note});
    ToldAdds(s, AudioFrame(timeUs), {Feed, Note});
    SentAdds(s, timeUs, ErrorEvent("provider_backpressure"), None, {Feed, Note});
    hide Adds, NoneAdmitted;
  }

  lemma ObservedAdds(s: SessionState, timeUs: nat, publish: bool)
    ensures Adds(s, Observed(s, timeUs, publish), {Note})
  {
    SameTasks(s.tasks);
    var predicted := Sent(s, timeUs, EndpointingPrediction, None);
    AddsNothing(s, Drawn(Drawn(s)), {Note});
    SentAdds(s, timeUs, EndpointingPrediction, None, {Note});
    SentAdds(predicted, timeUs, Observation, None, {Note});
    hide Adds, NoneAdmitted, Sent;
    AddsTrans(s, predicted, Sent(predicted, timeUs, Observation, None), {Note}, {Note});
    assert {Note} + {Note} == {Note};
  }

  function AudioKinds(): set<Kind> {
    DecisionKinds() + {Feed}
  }

  lemma AudioAdds(s: SessionState, timeUs: nat, full: bool, report: bool, publish: bool, answer: EngineAnswer)
    ensures Adds(s, AudioHandled(s, timeUs, full, report, publish, answer), AudioKinds())
  {
    hide Adds, FrameOffered, Observed, Decided, Sent;
    var offered := FrameOffered(s, timeUs, full, report);
    var observed := Observed(offered, timeUs, publish);
    OfferedAdds(s, timeUs, full, report);
    ObservedAdds(offered, timeUs, publish);
    AddsTrans(s, offered, observed, {Feed, Note}, {Note});
    if !s.providerOpen {
      SentAdds(s, timeUs, ErrorEvent("provider_closed"), None, AudioKinds());
    } else {
      match answer {
        case Decisions(actions) =>
          DecidedAdds(observed, actions, timeUs);
          AddsTrans(s, observed, Decided(observed, actions, timeUs), {Feed, Note} + {Note}, DecisionKinds());
          assert {Feed, Note} + {Note} + DecisionKinds() == AudioKinds();
        case EngineFailed =>
          var failed := Sent(observed, timeUs, ErrorEvent("runtime_error"), None);
          SentAdds(observed, timeUs, ErrorEvent("runtime_error"), None, {Note});
          AddsTrans(s, observed, failed, {Feed, Note} + {Note}, {Note});
          AddsWider(s, failed, {Feed, Note} + {Note} + {Note}, AudioKinds());
      }
    }
  }

  // ---------- client events ----------

  lemma TaskCancelAdds(s: SessionState, timeUs: nat, id: Id, reason: Option<string>, clockMs: nat)
    ensures Adds(s, TaskCancelHandled(s, timeUs, id, reason, clockMs), {Verdict})
  {
    SameTasks(s.tasks);
    AddsNothing(s, s, {Verdict});
    if id in s.tasks.active {
      var resolved := s.(tasks := ResolvedOne(s.tasks, id, Cancelled));
      assert NoneAdmitted(s.tasks, resolved.tasks);
      AddsNothing(s, resolved, {Verdict});
      var event := TaskOutcomeEvent(CancelledOutcome(s.tasks, id, reason));
      BufferedAdds(resolved, timeUs, event, clockMs, {Verdict});
      hide Adds, ResolvedOne, SentAndBuffered;
      AddsTrans(s, resolved, SentAndBuffered(resolved, timeUs, event, clockMs), {Verdict}, {Verdict});
      assert {Verdict} + {Verdict} == {Verdict};
    }
  }

  lemma {:induction false} ReplayAdds(s: SessionState, envelopes: seq<Envelope>)
    ensures Adds(s, ReplaySent(s, envelopes), {Duplicate})
    ensures ReplaySent(s, envelopes).tasks == s.tasks
  {
    SameTasks(s.tasks);
    hide NoneAdmitted, Adds;
    if envelopes == [] {
      AddsNothing(s, s, {Duplicate});
    } else {
      var t := ReplaySent(s, envelopes[..|envelopes| - 1]);
      ReplayAdds(s, envelopes[..|envelopes| - 1]);
      var after := ReplaySent(s, envelopes);
      AddsOne(t, after, ToClient(RawText(envelopes[|envelopes| - 1], true)), {Duplicate});
      AddsTrans(s, t, after, {Duplicate}, {Duplicate});
      assert {Duplicate} + {Duplicate} == {Duplicate};
    }
  }

  lemma ResumeAdds(s: SessionState, timeUs: nat, same: bool, lastSeen: nat, clockMs: nat)
    ensures Adds(s, ResumeHandled(s, timeUs, same, lastSeen, clockMs), {Duplicate, Note})
    ensures !same || Replayed(s.tasks, lastSeen, clockMs) == [] ==>
              Adds(s, ResumeHandled(s, timeUs, same, lastSeen, clockMs), {Note})
  {
    PurgeKeepsActive(s.tasks, lastSeen, clockMs);
    hide Replayed, Purged, Adds, Sent;
    var purged := s.(tasks := Purged(s.tasks, lastSeen, clockMs));
    var replay := Replayed(s.tasks, lastSeen, clockMs);
    var answered := ReplaySent(purged, replay);
    SentAdds(s, timeUs, ErrorEvent("session_mismatch"), None, {Note});
    AddsWider(s, Sent(s, timeUs, ErrorEvent("session_mismatch"), None), {Note}, {Duplicate, Note});
    SentAdds(answered, timeUs, Pong, None, {Note});
    AddsNothing(s, purged, {});
    ReplayAdds(purged, replay);
    AddsTrans(s, purged, answered, {}, {Duplicate});
    AddsTrans(s, answered, Sent(answered, timeUs, Pong, None), {} + {Duplicate}, {Note});
    assert {} + {Duplicate} + {Note} == {Duplicate, Note};
    if replay == [] {
      AddsTrans(s, purged, Sent(purged, timeUs, Pong, None), {}, {Note});
      assert {} + {Note} == {Note};
    }
  }

  lemma {:induction false} ForgetKeepsActive(t: TaskState, qs: seq<nat>)
    ensures Forget(t, qs).active == t.active
  {
    if qs != [] {
      ForgetKeepsActive(t, qs[..|qs| - 1]);
    }
  }

  lemma PurgeKeepsActive(t: TaskState, cursor: nat, nowMs: nat)
    ensures NoneAdmitted(t, Purged(t, cursor, nowMs))
  {
    ForgetKeepsActive(t, Ascending(Dead(t, cursor, nowMs)));
  }

  // ---------- the provider's emissions ----------

  lemma {:induction false} ResolvedAdmitsNone(t: TaskState, ids: seq<Id>, result: TaskResult)
    ensures NoneAdmitted(t, Resolved(t, ids, result))
  {
    if ids != [] {
      ResolvedAdmitsNone(t, ids[..|ids| - 1], result);
    }
  }

  lemma TimeoutsAdd(s: SessionState, timeUs: nat, order: seq<Id>, clockMs: nat)
    ensures Adds(s, DeadlinesEnforced(s, timeUs, order, clockMs), {Timeout})
  {
    var ids := Arrange(order, Expired(s.tasks, timeUs / 1000));
    var outcomes := TimedOutOutcomes(s.tasks, ids);
    var resolved := s.(tasks := Resolved(s.tasks, ids, Failure));
    ResolvedAdmitsNone(s.tasks, ids, Failure);
    assert forall o :: o in outcomes ==> RecordKind(TaskOutcomeEvent(o)) == Timeout;
    hide Adds, Resolved, TimedOutOutcomes, OutcomesSent, NoneAdmitted;
    AddsNothing(s, resolved, {Timeout});
    OutcomesAdd(resolved, timeUs, outcomes, clockMs, Timeout);
    AddsTrans(s, resolved, OutcomesSent(resolved, timeUs, outcomes, clockMs), {Timeout}, {Timeout});
    assert {Timeout} + {Timeout} == {Timeout};
  }

  lemma FinishedAdds(s: SessionState, g: Id, timeUs: nat, order: seq<Id>, clockMs: nat)
    ensures Adds(s, Finished(s, g, timeUs, order, clockMs), {Verdict})
  {
    var ids := Arrange(order, BoundTo(s.tasks, g));
    var outcomes := CompletedOutcomes(s.tasks, ids);
    var resolved := s.(active := None, tasks := Resolved(s.tasks, ids, Success));
    ResolvedAdmitsNone(s.tasks, ids, Success);
    assert forall o :: o in outcomes ==> RecordKind(TaskOutcomeEvent(o)) == Verdict;
    hide Adds, Resolved, CompletedOutcomes, OutcomesSent, NoneAdmitted;
    AddsNothing(s, resolved, {Verdict});
    OutcomesAdd(resolved, timeUs, outcomes, clockMs, Verdict);
    AddsTrans(s, resolved, OutcomesSent(resolved, timeUs, outcomes, clockMs), {Verdict}, {Verdict});
    assert {Verdict} + {Verdict} == {Verdict};
  }

  lemma CollectedAdds(s: SessionState, g: Id, emitted: Option<Emitted>, timeUs: nat, order: seq<Id>, clockMs: nat)
    ensures Adds(s, EvidenceCollected(s, g, emitted, timeUs, order, clockMs), {Citation})
  {
    SameTasks(s.tasks);
    hide Adds, AttachedToAll, NoneAdmitted;
    AddsNothing(s, s, {Citation});
    if emitted.Some? && Classify(emitted.value.event).Some? {
      AttachedToAllAdds(s, Arrange(order, BoundTo(s.tasks, g)), Classify(emitted.value.event).value,
                        emitted.value.eventId, timeUs, clockMs);
    }
  }

  lemma MediaAdds(s: SessionState, timeUs: nat, g: Id, full: bool)
    ensures Adds(s, MediaSent(s, timeUs, g, full), {Sound})
  {
    SameTasks(s.tasks);
    hide NoneAdmitted;
    var after := MediaSent(s, timeUs, g, full);
    if full {
      AddsNothing(s, after, {Sound});
    } else {
      AddsOne(s, after, ToClient(Media(NextSequence(s.sequence), timeUs, g)), {Sound});
    }
  }

  // An accepted emission, before what it carries is let out: its latency is observed, its marks are
  // sent and the deadlines are enforced.
  ghost function Checked(s: SessionState, offsetUs: nat, output: ProviderOutput, o: Oracle): SessionState
    requires s.active.Some?
  {
    var (latency, marks) := Observe(s.active.value.latency, output);
    var timeUs := MediaTime(s, offsetUs);
    var observed := s.(active := Some(s.active.value.(latency := latency)));
    DeadlinesEnforced(MarksSent(observed, timeUs, s.active.value.id, marks), timeUs, o.expiryOrder, o.clockMs)
  }

  function MediaTime(s: SessionState, offsetUs: nat): nat
    requires s.active.Some?
  {
    SaturatingAdd(s.active.value.baseUs, offsetUs)
  }

  lemma CheckedAdds(s: SessionState, offsetUs: nat, output: ProviderOutput, o: Oracle)
    requires s.active.Some?
    ensures Adds(s, Checked(s, offsetUs, output, o), {Mark, Timeout})
  {
    var (latency, marks) := Observe(s.active.value.latency, output);
    var timeUs := MediaTime(s, offsetUs);
    var observed := s.(active := Some(s.active.value.(latency := latency)));
    var marked := MarksSent(observed, timeUs, s.active.value.id, marks);
    SameTasks(s.tasks);
    hide Adds, NoneAdmitted, Observe, MarksSent, DeadlinesEnforced;
    AddsNothing(s, observed, {});
    MarksAdd(observed, timeUs, s.active.value.id, marks);
    AddsTrans(s, observed, marked, {}, {Mark});
    TimeoutsAdd(marked, timeUs, o.expiryOrder, o.clockMs);
    AddsTrans(s, marked, Checked(s, offsetUs, output, o), {} + {Mark}, {Timeout});
    assert {} + {Mark} + {Timeout} == {Mark, Timeout};
  }

  function EventKinds(): set<Kind> {
    {Speech, Mark, Turn, Cancellation, Citation, Verdict}
  }

  lemma EmittedAdds(s: SessionState, event: Event, g: Id, timeUs: nat, verdict: SafetyVerdict)
    ensures Adds(s, EventEmitted(s, event, g, timeUs, verdict).0, {Speech, Mark, Turn, Cancellation})
  {
    var kinds := {Speech, Mark, Turn, Cancellation};
    SameTasks(s.tasks);
    match Gated(s, event, verdict)
    case None =>
      AddsNothing(s, s, kinds);
    case Some(out) =>
      var sent := Sent(s, timeUs, out, Some(g));
      SentAdds(s, timeUs, out, Some(g), kinds);
      ToldAdds(sent, CancelGeneration(g), kinds);
      hide Adds, NoneAdmitted, Sent, Told;
      AddsTrans(s, sent, Told(sent, CancelGeneration(g)), kinds, kinds);
      assert kinds + kinds == kinds;
  }

  lemma EventAdds(s: SessionState, g: Id, event: Event, timeUs: nat, o: Oracle)
    ensures Adds(s, EventAccepted(s, g, event, timeUs, o), EventKinds())
  {
    hide Adds, EventEmitted, EvidenceCollected, Finished;
    var spoken := {Speech, Mark, Turn, Cancellation};
    var (sent, emitted) := EventEmitted(s, event, g, timeUs, o.verdict);
    var collected := EvidenceCollected(sent, g, emitted, timeUs, o.evidenceOrder, o.clockMs);
    EmittedAdds(s, event, g, timeUs, o.verdict);
    CollectedAdds(sent, g, emitted, timeUs, o.evidenceOrder, o.clockMs);
    AddsTrans(s, sent, collected, spoken, {Citation});
    AddsWider(s, collected, spoken + {Citation}, EventKinds());
    if CompletesGeneration(event) {
      FinishedAdds(collected, g, timeUs, o.completionOrder, o.clockMs);
      AddsTrans(s, collected, Finished(collected, g, timeUs, o.completionOrder, o.clockMs), EventKinds(), {Verdict});
      assert EventKinds() + {Verdict} == EventKinds();
    }
  }

  function ProviderKinds(): set<Kind> {
    EventKinds() + {Timeout, Sound, Note}
  }

  // The generation an emission speaks for is leased and active.
  predicate IsAccepted(s: SessionState, e: Emission) {
    e.generation.Some? && s.active.Some? && s.active.value.id == e.generation.value &&
    AnswerLease.Accepts(s.lease, e.generation.value)
  }

  // What becomes of an accepted emission once it is checked.
  lemma AcceptedIs(s: SessionState, e: Emission, o: Oracle)
    requires IsAccepted(s, e)
    ensures var checked := Checked(s, e.mediaOffsetUs, e.output, o);
            var timeUs := MediaTime(s, e.mediaOffsetUs);
            EmissionHandled(s, e, o) ==
            match e.output
            case ProviderEvent(event) => EventAccepted(checked, e.generation.value, event, timeUs, o)
            case Audio =>
              if s.config.safetyEnabled && o.audioWithheld then checked
              else MediaSent(checked, timeUs, e.generation.value, o.mediaFull)
  {
    CheckedKeepsConfig(s, e.mediaOffsetUs, e.output, o);
    hide EventAccepted, MediaSent, Observe, MarksSent, DeadlinesEnforced;
  }

  lemma CheckedKeepsConfig(s: SessionState, offsetUs: nat, output: ProviderOutput, o: Oracle)
    requires s.active.Some?
    ensures var after := Checked(s, offsetUs, output, o);
            after.config == s.config && after.open == s.open && after.providerOpen == s.providerOpen
  {
    var (latency, marks) := Observe(s.active.value.latency, output);
    var timeUs := MediaTime(s, offsetUs);
    var observed := s.(active := Some(s.active.value.(latency := latency)));
    hide Observe;
    MarksKeepFlags(observed, timeUs, s.active.value.id, marks);
    hide MarksSent;
    var marked := MarksSent(observed, timeUs, s.active.value.id, marks);
    var ids := Arrange(o.expiryOrder, Expired(marked.tasks, timeUs / 1000));
    OutcomesKeepFlags(marked.(tasks := Resolved(marked.tasks, ids, Failure)), timeUs,
                      TimedOutOutcomes(marked.tasks, ids), o.clockMs);
  }

  lemma {:induction false} MarksKeepFlags(s: SessionState, timeUs: nat, g: Id, phases: seq<LatencyPhase>)
    ensures var after := MarksSent(s, timeUs, g, phases);
            after.config == s.config && after.open == s.open && after.providerOpen == s.providerOpen
  {
    if phases != [] {
      MarksKeepFlags(s, timeUs, g, phases[..|phases| - 1]);
    }
  }

  lemma {:induction false} OutcomesKeepFlags(s: SessionState, timeUs: nat, outcomes: seq<TaskOutcome>, clockMs: nat)
    ensures var after := OutcomesSent(s, timeUs, outcomes, clockMs);
            after.config == s.config && after.open == s.open && after.providerOpen == s.providerOpen
  {
    if outcomes != [] {
      OutcomesKeepFlags(s, timeUs, outcomes[..|outcomes| - 1], clockMs);
    }
  }

  lemma EmissionAdds(s: SessionState, e: Emission, o: Oracle)
    ensures Adds(s, EmissionHandled(s, e, o), ProviderKinds())
  {
    SameTasks(s.tasks);
    hide Adds, Checked, EventAccepted, MediaSent, Sent, NoneAdmitted;
    AddsNothing(s, s, ProviderKinds());
    if IsAccepted(s, e) {
      var checked := Checked(s, e.mediaOffsetUs, e.output, o);
      var timeUs := MediaTime(s, e.mediaOffsetUs);
      var after := EmissionHandled(s, e, o);
      AcceptedIs(s, e, o);
      hide EmissionHandled;
      CheckedAdds(s, e.mediaOffsetUs, e.output, o);
      AddsWider(s, checked, {Mark, Timeout}, ProviderKinds());
      match e.output {
        case ProviderEvent(event) =>
          EventAdds(checked, e.generation.value, event, timeUs, o);
          AddsTrans(s, checked, after, ProviderKinds(), EventKinds());
          assert ProviderKinds() + EventKinds() == ProviderKinds();
        case Audio =>
          MediaAdds(checked, timeUs, e.generation.value, o.mediaFull);
          AddsTrans(s, checked, MediaSent(checked, timeUs, e.generation.value, o.mediaFull), ProviderKinds(), {Sound});
          assert ProviderKinds() + {Sound} == ProviderKinds();
      }
    } else if e.generation.None? && e.output.ProviderEvent? {
      SentAdds(s, e.mediaOffsetUs, e.output.event, None, ProviderKinds());
    }
  }

  // ---------- steps ----------

  // The kinds a stimulus may bring about.
  function StepKinds(stimulus: Stimulus): set<Kind> {
    match stimulus
    case Quiet => {}
    case EventRefused(_, _) => {Note}
    case CapabilityOffered(_) => {Note}
    case ImageShown(_) => {Note}
    case Pinged(_) => {Note}
    case TaskAsked(_, _) => {Receipt, Note}
    case TaskCancelled(_, _, _) => {Verdict}
    case ResumeAsked(_, _, _) => {Duplicate, Note}
    case TranscriptFinal(_) => {Mark, Commit, Note}
    case BargeIn(_) => {Mark, Cancellation, Turn}
    case AudioArrived(_, _, _, _, _) => AudioKinds()
    case FromProvider(_) => ProviderKinds()
    case ProviderGone => {}
    case Shutdown => {Cancellation, Ending}
  }

  lemma ClosedAdds(s: SessionState)
    ensures Adds(s, Closed(s), {Cancellation, Ending})
  {
    var kinds := {Cancellation, Ending};
    SameTasks(s.tasks);
    AddsNothing(s, s, kinds);
    var quiet := s.(active := None);
    AddsNothing(s, quiet, kinds);
    var cancelled := if s.active.Some? then Told(quiet, CancelGeneration(s.active.value.id)) else s;
    if s.active.Some? {
      ToldAdds(quiet, CancelGeneration(s.active.value.id), kinds);
      AddsTrans(s, quiet, cancelled, kinds, kinds);
    }
    assert kinds + kinds == kinds;
    var told := Told(cancelled, Close);
    ToldAdds(cancelled, Close, kinds);
    hide Told, NoneAdmitted;
    AddsTrans(s, cancelled, told, kinds, kinds);
  }

  lemma AskedSays(s: SessionState, timeUs: nat, request: TaskRequested, clockMs: nat)
    ensures Says(s, TaskRequestHandled(s, timeUs, request, clockMs), {Receipt, Note})
  {
    SentAdds(s, timeUs, ErrorEvent("task_rejected"), None, {Receipt, Note});
    hide Rejects, Admitted, AckFor, NoneAdmitted;
  }

  // What every step adds to the two channels is of the kinds of its stimulus, and only a request for a
  // task makes one active.
  lemma StepAdds(s: SessionState, input: Input)
    ensures Says(s, Step(s, input), StepKinds(input.stimulus))
    ensures !input.stimulus.TaskAsked? ==> NoneAdmitted(s.tasks, Step(s, input).tasks)
  {
    var o := input.oracle;
    var kinds := StepKinds(input.stimulus);
    SameTasks(s.tasks);
    hide NoneAdmitted, Says, TaskRequestHandled, TaskCancelHandled, ResumeHandled, Started, Interrupted, AudioHandled,
      EmissionHandled, Closed, Sent;
    AddsNothing(s, s, kinds);
    if s.open {
      match input.stimulus {
        case Quiet =>
        case EventRefused(t, code) => SentAdds(s, t, ErrorEvent(code), None, kinds);
        case CapabilityOffered(t) => SentAdds(s, t, CapabilitySelected, None, kinds);
        case ImageShown(t) => SentAdds(s, t, VisualInputRejected, None, kinds);
        case Pinged(t) => SentAdds(s, t, Pong, None, kinds);
        case TaskAsked(t, request) => AskedSays(s, t, request, o.clockMs);
        case TaskCancelled(t, id, reason) => TaskCancelAdds(s, t, id, reason, o.clockMs);
        case ResumeAsked(t, same, lastSeen) => ResumeAdds(s, t, same, lastSeen, o.clockMs);
        case TranscriptFinal(t) => StartedAdds(s, t);
        case BargeIn(t) => InterruptedAdds(s, HardYield, t);
        case AudioArrived(t, full, report, publish, answer) => AudioAdds(s, t, full, report, publish, answer);
        case FromProvider(e) => EmissionAdds(s, e, o);
        case ProviderGone => AddsNothing(s, s.(providerOpen := false), kinds);
        case Shutdown => ClosedAdds(s);
      }
    }
  }

  // ---------- runs ----------

  // Entry `i` was written by the `k`-th step.
  ghost predicate WrittenAt(config: Config, inputs: seq<Input>, k: nat, i: nat) {
    k < |inputs| && |Run(config, inputs[..k]).log| <= i < |Step(Run(config, inputs[..k]), inputs[k]).log|
  }

  // Everything but the greeting was written by some step.
  lemma {:induction false} StepOfEntry(config: Config, inputs: seq<Input>, i: nat) returns (k: nat)
    requires 0 < i < |Run(config, inputs).log|
    ensures WrittenAt(config, inputs, k, i)
    ensures var after := Step(Run(config, inputs[..k]), inputs[k]);
            after.log[i] == Run(config, inputs).log[i] && after.log <= Run(config, inputs).log
  {
    if inputs == [] {
      assert false;
    } else {
      var front, last := inputs[..|inputs| - 1], inputs[|inputs| - 1];
      var s := Run(config, front);
      var after := Run(config, inputs);
      StepAdds(s, last);
      hide Step, StepKinds;
      if i < |s.log| {
        assert after.log[i] == after.log[..|s.log|][i];
        k := StepOfEntry(config, front, i);
        assert front[..k] == inputs[..k];
        assert Step(Run(config, inputs[..k]), inputs[k]).log <= s.log <= after.log;
      } else {
        k := |inputs| - 1;
      }
    }
  }
}
