// What becomes of what is said: the evidence every task of a generation gains, and its announcement.
module Evidence {
  import opened Protocol
  import opened TaskLedger
  import opened Session
  import opened WireInvariant
  import opened LedgerInvariant
  import opened SessionInvariant
  import opened SessionSteps
  import opened SessionTheorems
  import opened Egress
  import opened SessionLaws
  import opened Gate
  import opened Resolutions

  // ---------- links and their announcements ----------

  predicate Announces(e: Entry, link: EvidenceLink) {
    IsLedgerEntry(e) && e.message.envelope.event == EvidenceLinkEvent(link)
  }

  ghost predicate AnnouncedIn(log: seq<Entry>, link: EvidenceLink) {
    exists i :: 0 <= i < |log| && Announces(log[i], link)
  }

  // A link is in the index exactly when it has been announced.
  ghost predicate LinksAnnounced(s: SessionState) {
    forall link: EvidenceLink :: link in LinksOf(s.tasks.linksBySource, link.source) <==> AnnouncedIn(s.log, link)
  }

  lemma AnnouncedAppend(log: seq<Entry>, e: Entry, link: EvidenceLink)
    ensures AnnouncedIn(log + [e], link) <==> AnnouncedIn(log, link) || Announces(e, link)
  {
    var longer := log + [e];
    if AnnouncedIn(log, link) {
      var i :| 0 <= i < |log| && Announces(log[i], link);
      assert Announces(longer[i], link);
    }
    if Announces(e, link) {
      assert Announces(longer[|log|], link);
    }
  }

  lemma LinkSentAnnounces(s: SessionState, timeUs: nat, link: EvidenceLink, clockMs: nat)
    requires LinksAnnounced(s)
    ensures LinksAnnounced(LinkSent(s, timeUs, link, clockMs))
  {
    var after := LinkSent(s, timeUs, link, clockMs);
    if !Linked(s.tasks, link) {
      var e := after.log[|s.log|];
      assert after.log == s.log + [e] && Announces(e, link);
      assert after.tasks.linksBySource ==
             s.tasks.linksBySource[link.source := LinksOf(s.tasks.linksBySource, link.source) + [link]];
      hide LinkSent;
      forall x: EvidenceLink
        ensures x in LinksOf(after.tasks.linksBySource, x.source) <==> AnnouncedIn(after.log, x)
      {
        AnnouncedAppend(s.log, e, x);
        hide AnnouncedIn;
        assert Announces(e, x) <==> x == link;
      }
    }
  }

  lemma {:induction false} AttachedAnnounces(s: SessionState, ids: seq<Id>, kind: EvidenceKind, evidence: Id,
                                             timeUs: nat,
                                             clockMs: nat)
    requires LinksAnnounced(s)
    ensures LinksAnnounced(AttachedToAll(s, ids, kind, evidence, timeUs, clockMs))
  {
    if ids != [] {
      var last := ids[|ids| - 1];
      var t := AttachedToAll(s, ids[..|ids| - 1], kind, evidence, timeUs, clockMs);
      AttachedAnnounces(s, ids[..|ids| - 1], kind, evidence, timeUs, clockMs);
      var attached := t.(tasks := EvidenceAttached(t.tasks, last, kind, evidence));
      assert attached.tasks.linksBySource == t.tasks.linksBySource && attached.log == t.log;
      assert LinksAnnounced(attached);
      hide EvidenceAttached, LinksAnnounced, LinkSent;
      LinkSentAnnounces(attached, timeUs, EvidenceLink(last, evidence, TaskProof, 1.0), clockMs);
    }
  }

  // What neither links nor announces leaves the two in step.
  lemma QuietKeepsAnnounced(s: SessionState, after: SessionState, kinds: set<Kind>)
    requires LinksAnnounced(s) && Says(s, after, kinds) && Citation !in kinds
    requires after.tasks.linksBySource == s.tasks.linksBySource
    ensures LinksAnnounced(after)
  {
    forall link: EvidenceLink
      ensures AnnouncedIn(s.log, link) <==> AnnouncedIn(after.log, link)
    {
      if AnnouncedIn(s.log, link) {
        var i :| 0 <= i < |s.log| && Announces(s.log[i], link);
        assert after.log[i] == after.log[..|s.log|][i];
        assert Announces(after.log[i], link);
      }
      if AnnouncedIn(after.log, link) {
        var i :| 0 <= i < |after.log| && Announces(after.log[i], link);
        assert KindOf(after.log[i]) == Citation;
        assert i < |s.log|;
        assert after.log[i] == after.log[..|s.log|][i];
        assert Announces(s.log[i], link);
      }
    }
    hide AnnouncedIn, Says;
  }

  // ---------- steps that link nothing ----------

  lemma ActedLinksNothing(s: SessionState, action: InteractionAction, timeUs: nat)
    ensures Acted(s, action, timeUs).tasks.linksBySource == s.tasks.linksBySource
  {
  }

  lemma {:induction false} DecidedLinksNothing(s: SessionState, actions: seq<InteractionAction>, timeUs: nat)
    ensures Decided(s, actions, timeUs).tasks.linksBySource == s.tasks.linksBySource
  {
    if actions != [] {
      var t, action := Decided(s, actions[..|actions| - 1], timeUs), actions[|actions| - 1];
      var tag := if action == HardYield && t.active.Some? then Some(t.active.value.id) else None;
      DecidedLinksNothing(s, actions[..|actions| - 1], timeUs);
      ActedLinksNothing(Sent(t, timeUs, InteractionDecision(action), tag), action, timeUs);
      hide Acted;
    }
  }

  lemma {:induction false} ForgetLinksNothing(t: TaskState, qs: seq<nat>)
    ensures Forget(t, qs).linksBySource == t.linksBySource
  {
    if qs != [] {
      ForgetLinksNothing(t, qs[..|qs| - 1]);
    }
  }

  lemma ResumeLinksNothing(s: SessionState, timeUs: nat, same: bool, lastSeen: nat, clockMs: nat)
    ensures ResumeHandled(s, timeUs, same, lastSeen, clockMs).tasks.linksBySource == s.tasks.linksBySource
  {
    var purged := s.(tasks := Purged(s.tasks, lastSeen, clockMs));
    ForgetLinksNothing(s.tasks, Ascending(Dead(s.tasks, lastSeen, clockMs)));
    ReplayAdds(purged, Replayed(s.tasks, lastSeen, clockMs));
    hide Replayed, Forget, ReplaySent, Adds;
  }

  lemma FloorLinksNothing(s: SessionState, timeUs: nat)
    ensures Started(s, timeUs).tasks.linksBySource == s.tasks.linksBySource
    ensures Interrupted(s, HardYield, timeUs).tasks == s.tasks && Closed(s).tasks == s.tasks
  {
  }

  lemma BufferedLinksNothing(s: SessionState, timeUs: nat, event: Event, clockMs: nat)
    ensures SentAndBuffered(s, timeUs, event, clockMs).tasks.linksBySource == s.tasks.linksBySource
  {
  }

  lemma RequestLinksNothing(s: SessionState, timeUs: nat, request: TaskRequested, clockMs: nat)
    ensures TaskRequestHandled(s, timeUs, request, clockMs).tasks.linksBySource == s.tasks.linksBySource
  {
    if !Rejects(s.tasks, request) {
      var nowMs, defaultMs := timeUs / 1000, s.config.defaultDeadlineMs;
      var admitted := Admitted(s.tasks, request, nowMs, defaultMs);
      assert admitted.linksBySource == s.tasks.linksBySource;
      hide Rejects, Admitted, AckFor, SentAndBuffered;
      BufferedLinksNothing(s.(tasks := admitted), timeUs,
                           TaskAcknowledgedEvent(AckFor(request, Some(s.config.providerId), nowMs, defaultMs)),
                           clockMs);
    }
  }

  lemma CancelLinksNothing(s: SessionState, timeUs: nat, id: Id, reason: Option<string>, clockMs: nat)
    ensures TaskCancelHandled(s, timeUs, id, reason, clockMs).tasks.linksBySource == s.tasks.linksBySource
  {
    if id in s.tasks.active {
      hide SentAndBuffered;
      BufferedLinksNothing(s.(tasks := ResolvedOne(s.tasks, id, Cancelled)), timeUs,
                           TaskOutcomeEvent(CancelledOutcome(s.tasks, id, reason)), clockMs);
    }
  }

  lemma AudioLinksNothing(s: SessionState, a: Stimulus)
    requires a.AudioArrived?
    ensures AudioHandled(s, a.timeUs, a.queueFull, a.reportDrop, a.publish, a.answer).tasks.linksBySource ==
            s.tasks.linksBySource
  {
    var observed := Observed(FrameOffered(s, a.timeUs, a.queueFull, a.reportDrop), a.timeUs, a.publish);
    ObservedKeepsTasks(s, a.timeUs, a.queueFull, a.reportDrop, a.publish);
    hide Observed, FrameOffered, Decided;
    if a.answer.Decisions? {
      DecidedLinksNothing(observed, a.answer.actions, a.timeUs);
    }
  }

  lemma OthersLinkNothing(s: SessionState, input: Input)
    requires !input.stimulus.FromProvider?
    ensures Step(s, input).tasks.linksBySource == s.tasks.linksBySource
  {
    var o := input.oracle;
    hide Started, Interrupted, Closed, TaskRequestHandled, TaskCancelHandled, ResumeHandled, AudioHandled;
    match input.stimulus {
      case TaskAsked(t, request) => RequestLinksNothing(s, t, request, o.clockMs);
      case TaskCancelled(t, id, reason) => CancelLinksNothing(s, t, id, reason, o.clockMs);
      case ResumeAsked(t, same, lastSeen) => ResumeLinksNothing(s, t, same, lastSeen, o.clockMs);
      case AudioArrived(_, _, _, _, _) => AudioLinksNothing(s, input.stimulus);
      case TranscriptFinal(t) => FloorLinksNothing(s, t);
      case BargeIn(t) => FloorLinksNothing(s, t);
      case Shutdown => FloorLinksNothing(s, 0);
      case _ =>
    }
  }

  // ---------- emissions ----------

  lemma {:induction false} ResolvedLinksNothing(t: TaskState, ids: seq<Id>, result: TaskResult)
    ensures Resolved(t, ids, result).linksBySource == t.linksBySource
  {
    ResolvedSameEvidence(t, ids, result);
  }

  lemma FinishedAnnounces(s: SessionState, g: Id, timeUs: nat, order: seq<Id>, clockMs: nat)
    requires LinksAnnounced(s)
    ensures LinksAnnounced(Finished(s, g, timeUs, order, clockMs))
  {
    var ids := Arrange(order, BoundTo(s.tasks, g));
    FinishedAdds(s, g, timeUs, order, clockMs);
    ResolvedLinksNothing(s.tasks, ids, Success);
    OutcomesSameEvidence(s.(active := None, tasks := Resolved(s.tasks, ids, Success)), timeUs,
                         CompletedOutcomes(s.tasks, ids), clockMs);
    var after := Finished(s, g, timeUs, order, clockMs);
    assert after.tasks.linksBySource == s.tasks.linksBySource;
    hide Finished, LinksAnnounced, NoneAdmitted, Says;
    QuietKeepsAnnounced(s, after, {Verdict});
  }

  lemma EventAnnounces(s: SessionState, g: Id, event: Event, timeUs: nat, o: Oracle)
    requires LinksAnnounced(s)
    ensures LinksAnnounced(EventAccepted(s, g, event, timeUs, o))
  {
    var (sent, emitted) := EventEmitted(s, event, g, timeUs, o.verdict);
    var collected := EvidenceCollected(sent, g, emitted, timeUs, o.evidenceOrder, o.clockMs);
    EmittedIs(s, event, g, timeUs, o.verdict);
    EmittedAdds(s, event, g, timeUs, o.verdict);
    hide LinksAnnounced, EventEmitted, Finished, AttachedToAll, NoneAdmitted, Says;
    QuietKeepsAnnounced(s, sent, {Speech, Mark, Turn, Cancellation});
    if emitted.Some? && Classify(emitted.value.event).Some? {
      AttachedAnnounces(sent, Arrange(o.evidenceOrder, BoundTo(sent.tasks, g)), Classify(emitted.value.event).value,
                        emitted.value.eventId, timeUs, o.clockMs);
    }
    FinishedAnnounces(collected, g, timeUs, o.completionOrder, o.clockMs);
  }

  lemma AcceptedAnnounces(s: SessionState, e: Emission, o: Oracle)
    requires LinksAnnounced(s) && IsAccepted(s, e)
    ensures LinksAnnounced(EmissionHandled(s, e, o))
  {
    var checked := Checked(s, e.mediaOffsetUs, e.output, o);
    var timeUs, g := MediaTime(s, e.mediaOffsetUs), e.generation.value;
    AcceptedIs(s, e, o);
    CheckedAdds(s, e.mediaOffsetUs, e.output, o);
    CheckedSameEvidence(s, e.mediaOffsetUs, e.output, o);
    MediaAdds(checked, timeUs, g, o.mediaFull);
    assert MediaSent(checked, timeUs, g, o.mediaFull).tasks == checked.tasks;
    hide EmissionHandled, EventAccepted, Checked, LinksAnnounced, MediaSent, NoneAdmitted, Says, MediaTime;
    QuietKeepsAnnounced(s, checked, {Mark, Timeout});
    match e.output {
      case ProviderEvent(event) => EventAnnounces(checked, g, event, timeUs, o);
      case Audio => QuietKeepsAnnounced(checked, MediaSent(checked, timeUs, g, o.mediaFull), {Sound});
    }
  }

  lemma StepAnnounces(s: SessionState, input: Input)
    requires LinksAnnounced(s)
    ensures LinksAnnounced(Step(s, input))
  {
    var after := Step(s, input);
    hide LinksAnnounced, EmissionHandled, IsAccepted, Says, KindOf, NoneAdmitted;
    if s.open && input.stimulus.FromProvider? {
      StepIsAnswer(s, input);
      hide Step;
      var e, o := input.stimulus.emission, input.oracle;
      if IsAccepted(s, e) {
        AcceptedAnnounces(s, e, o);
      } else {
        NotAcceptedIs(s, e, o);
        UntaggedAnnounces(s, e);
      }
    } else if s.open {
      StepAdds(s, input);
      OthersLinkNothing(s, input);
      hide Step;
      QuietKeepsAnnounced(s, after, StepKinds(input.stimulus));
    }
  }

  lemma UntaggedAnnounces(s: SessionState, e: Emission)
    requires LinksAnnounced(s)
    ensures e.output.ProviderEvent? ==> LinksAnnounced(Sent(s, e.mediaOffsetUs, e.output.event, None))
  {
    if e.output.ProviderEvent? {
      var after := Sent(s, e.mediaOffsetUs, e.output.event, None);
      SentAdds(s, e.mediaOffsetUs, e.output.event, None, {Note});
      assert after.tasks == s.tasks;
      hide LinksAnnounced, Sent, Says, NoneAdmitted;
      QuietKeepsAnnounced(s, after, {Note});
    }
  }

  // In every reachable state the links of the evidence index are exactly those announced on the wire.
  lemma {:induction false} EveryLinkIsAnnounced(config: Config, inputs: seq<Input>)
    ensures LinksAnnounced(Run(config, inputs))
  {
    hide Step;
    if inputs == [] {
      assert Run(config, []).tasks == EMPTY_LEDGER;
    } else {
      hide LinksAnnounced;
      EveryLinkIsAnnounced(config, inputs[..|inputs| - 1]);
      StepAnnounces(Run(config, inputs[..|inputs| - 1]), inputs[|inputs| - 1]);
    }
  }

  // ---------- what is said becomes evidence ----------

  // Text is evidence of what was said, the provider's progress of when, and an image of what was seen.
  predicate Proves(event: Event, kind: EvidenceKind) {
    match kind
    case Transcript => event.OutputTextDelta? || event.OutputTextFinal?
    case Timing => event == ProviderState(Generating) || event == ProviderState(Complete)
    case Visual => event == VisualInputAccepted
    case ToolCall => false
  }

  ghost predicate Holds(t: TaskState, id: Id, kind: EvidenceKind, evidence: Id) {
    id in t.active && kind in t.active[id].collected && evidence in t.active[id].collected[kind]
  }

  lemma {:induction false} AttachedHolds(s: SessionState, ids: seq<Id>, kind: EvidenceKind, evidence: Id, timeUs: nat,
                                         clockMs: nat, id: Id)
    requires id in ids && id in s.tasks.active
    ensures Holds(AttachedToAll(s, ids, kind, evidence, timeUs, clockMs).tasks, id, kind, evidence)
  {
    var front, last := ids[..|ids| - 1], ids[|ids| - 1];
    var t := AttachedToAll(s, front, kind, evidence, timeUs, clockMs);
    AttachedSameTasks(s, front, kind, evidence, timeUs, clockMs);
    assert id in front || id == last;
    if id in front {
      AttachedHolds(s, front, kind, evidence, timeUs, clockMs, id);
    }
    OneHolds(t, last, kind, evidence, timeUs, clockMs, id);
    hide AttachedTo;
  }

  lemma OneHolds(s: SessionState, target: Id, kind: EvidenceKind, evidence: Id, timeUs: nat, clockMs: nat, id: Id)
    requires id in s.tasks.active && (id == target || Holds(s.tasks, id, kind, evidence))
    ensures Holds(AttachedTo(s, target, kind, evidence, timeUs, clockMs).tasks, id, kind, evidence)
  {
    var attached := s.(tasks := EvidenceAttached(s.tasks, target, kind, evidence));
    assert Holds(attached.tasks, id, kind, evidence);
    hide EvidenceAttached;
    var link := EvidenceLink(target, evidence, TaskProof, 1.0);
    assert LinkSent(attached, timeUs, link, clockMs).tasks.active == attached.tasks.active;
  }

  lemma ProvesIsClass(event: Event, kind: EvidenceKind)
    requires Proves(event, kind)
    ensures Classify(event) == Some(kind)
  {
  }

  lemma EventHolds(s: SessionState, g: Id, event: Event, timeUs: nat, o: Oracle, kind: EvidenceKind, id: Id)
    requires var (sent, emitted) := EventEmitted(s, event, g, timeUs, o.verdict);
             emitted.Some? && Proves(emitted.value.event, kind)
    requires var t := EventAccepted(s, g, event, timeUs, o).tasks; id in t.active && t.active[id].generation == Some(g)
    ensures Holds(EventAccepted(s, g, event, timeUs, o).tasks, id, kind, s.minted)
  {
    var (sent, emitted) := EventEmitted(s, event, g, timeUs, o.verdict);
    var collected := EvidenceCollected(sent, g, emitted, timeUs, o.evidenceOrder, o.clockMs);
    var ids := Arrange(o.evidenceOrder, BoundTo(sent.tasks, g));
    EmittedIs(s, event, g, timeUs, o.verdict);
    ProvesIsClass(emitted.value.event, kind);
    CollectedSameTasks(sent, g, emitted, timeUs, o.evidenceOrder, o.clockMs);
    FinishedAdds(collected, g, timeUs, o.completionOrder, o.clockMs);
    hide EventEmitted, Finished, AttachedToAll, Says, Classify, Proves;
    assert id in collected.tasks.active;
    if event == ProviderState(Complete) {
      FinishResolves(collected, g, timeUs, o.completionOrder, o.clockMs, id);
    }
    assert id in ids;
    AttachedHolds(sent, ids, kind, emitted.value.eventId, timeUs, o.clockMs, id);
  }

  // Whatever a step says for a generation becomes, by its kind, evidence of every task of that generation
  // that is still active afterwards, and the client is told so.
  lemma SpeechIsKept(s: SessionState, input: Input, i: nat, kind: EvidenceKind, id: Id)
    requires |s.log| <= i < |Step(s, input).log| && KindOf(Step(s, input).log[i]) == Speech
    requires Proves(Step(s, input).log[i].message.envelope.event, kind)
    requires var t := Step(s, input).tasks;
             id in t.active && t.active[id].generation == Step(s, input).log[i].message.envelope.generation
    ensures Holds(Step(s, input).tasks, id, kind, Step(s, input).log[i].message.envelope.eventId)
  {
    SpeechIsAnswer(s, input, i);
    StepSpeaks(s, input, i);
    StepIsAnswer(s, input);
    hide Step, Proves, Holds, Due, KindOf, MediaTime;
    EmissionHolds(s, input.stimulus.emission, input.oracle, i, kind, id);
  }

  lemma EmissionHolds(s: SessionState, e: Emission, o: Oracle, i: nat, kind: EvidenceKind, id: Id)
    requires IsAccepted(s, e)
    requires |s.log| <= i < |EmissionHandled(s, e, o).log| && KindOf(EmissionHandled(s, e, o).log[i]) == Speech
    requires Proves(EmissionHandled(s, e, o).log[i].message.envelope.event, kind)
    requires var t := EmissionHandled(s, e, o).tasks; id in t.active && t.active[id].generation == e.generation
    ensures Holds(EmissionHandled(s, e, o).tasks, id, kind, EmissionHandled(s, e, o).log[i].message.envelope.eventId)
  {
    hide EmissionHandled, EventAccepted, EventEmitted, Checked, Proves, Holds, MediaTime, KindOf, Due;
    var checked := Checked(s, e.mediaOffsetUs, e.output, o);
    var timeUs, g := MediaTime(s, e.mediaOffsetUs), e.generation.value;
    AcceptedSpeaks(s, e, o, i);
    AcceptedIs(s, e, o);
    EventSays(checked, g, e.output.event, timeUs, o);
    EmittedIs(checked, e.output.event, g, timeUs, o.verdict);
    var sent := EventEmitted(checked, e.output.event, g, timeUs, o.verdict).0;
    SaidBefore(sent, EventAccepted(checked, g, e.output.event, timeUs, o), i);
    EventHolds(checked, g, e.output.event, timeUs, o, kind, id);
  }

  // What is said is said before the evidence is collected.
  lemma SaidBefore(sent: SessionState, after: SessionState, i: nat)
    requires Says(sent, after, {Citation, Verdict}) && i < |after.log| && KindOf(after.log[i]) == Speech
    ensures i < |sent.log| && after.log[i] == sent.log[i]
  {
    KindComesBefore(sent, after, {Citation, Verdict}, i);
  }

  // Over runs: the evidence is also linked, and the link announced.
  lemma SpeechIsEvidence(config: Config, inputs: seq<Input>, input: Input, i: nat, kind: EvidenceKind, id: Id)
    requires var s, after := Run(config, inputs), Run(config, inputs + [input]);
             |s.log| <= i < |after.log| && KindOf(after.log[i]) == Speech &&
             Proves(after.log[i].message.envelope.event, kind) &&
             id in after.tasks.active && after.tasks.active[id].generation == after.log[i].message.envelope.generation
    ensures var after := Run(config, inputs + [input]);
            var evidence := after.log[i].message.envelope.eventId;
            && Holds(after.tasks, id, kind, evidence) && evidence in EvidenceFor(after.tasks, id)
            && exists link: EvidenceLink :: link.source == id && link.target == evidence && AnnouncedIn(after.log, link)
  {
    var all := inputs + [input];
    assert all[..|inputs|] == inputs;
    var after := Run(config, all);
    var evidence := after.log[i].message.envelope.eventId;
    SpeechIsKept(Run(config, inputs), input, i, kind, id);
    EvidenceMatchesBuckets(config, all, id);
    EveryLinkIsAnnounced(config, all);
    LinksAreFiled(config, all);
    hide Run, Step, AnnouncedIn, Proves;
    assert InBuckets(after.tasks.active[id], evidence);
    LinkOfEvidence(after, id, evidence);
  }

  lemma LinksAreFiled(config: Config, inputs: seq<Input>)
    ensures var t := Run(config, inputs).tasks;
            forall id, link :: link in LinksOf(t.linksBySource, id) ==> link.source == id
  {
    RunOk(config, inputs);
    hide Run, Core, ProvenanceOk, ActiveOk, CompletedOk, OutcomesOk, AcksOk, LinksOf;
  }

  lemma LinkOfEvidence(s: SessionState, id: Id, evidence: Id)
    requires LinksAnnounced(s) && evidence in EvidenceFor(s.tasks, id)
    requires forall link :: link in LinksOf(s.tasks.linksBySource, id) ==> link.source == id
    ensures exists link: EvidenceLink :: link.source == id && link.target == evidence && AnnouncedIn(s.log, link)
  {
    hide AnnouncedIn;
    var links := LinksOf(s.tasks.linksBySource, id);
    var i :| 0 <= i < |links| && Targets(links)[i] == evidence;
    assert links[i] in links;
  }
}
