// What an accepted emission lets out: the text the safety gate passes and what it holds back, the audio,
// and the evidence that is kept of it.
module Gate {
  import opened Protocol
  import opened TaskLedger
  import opened Session
  import opened WireInvariant
  import opened LedgerInvariant
  import opened SessionInvariant
  import opened SessionSteps
  import opened SessionTheorems
  import opened Egress
  import opened SessionLaws

  // ---------- what is said is what was released ----------

  // The words `out` are due to the provider's `event`. Behind the gate a delta carries what a verdict on
  // a delta releases, and a final text what a verdict intervenes with, what a verdict on a final text
  // gives, or, when that verdict holds, the provider's own. Anything else is the provider's own event.
  predicate Due(gate: bool, event: Event, verdict: SafetyVerdict, out: Event) {
    match out
    case OutputTextDelta(text) =>
      if gate then event.OutputTextDelta? && verdict == Release(text) && text != "" else event == out
    case OutputTextFinal(text) =>
      if !gate then event == out
      else if event.OutputTextDelta? then verdict == Intervene(text)
      else event.OutputTextFinal? && (if verdict.Hold? then event == out else verdict.text == text)
    case _ => event == out
  }

  // The step answers an accepted event, and `entry` is what is due to it, under its generation and at its
  // media time.
  ghost predicate SaidFor(s: SessionState, input: Input, entry: Entry) {
    && input.stimulus.FromProvider? && input.stimulus.emission.output.ProviderEvent?
    && IsAccepted(s, input.stimulus.emission)
    && entry.ToClient? && entry.message.Control?
    && entry.message.envelope.generation == input.stimulus.emission.generation
    && entry.message.envelope.mediaTimeUs == MediaTime(s, input.stimulus.emission.mediaOffsetUs)
    && Due(s.config.safetyEnabled, input.stimulus.emission.output.event, input.oracle.verdict,
           entry.message.envelope.event)
  }

  // What is said of an event is due to it.
  lemma EmittedIs(s: SessionState, event: Event, g: Id, timeUs: nat, verdict: SafetyVerdict)
    ensures var (after, emitted) := EventEmitted(s, event, g, timeUs, verdict);
            && after.config == s.config && after.active == s.active && after.tasks == s.tasks
            && if emitted.None? then after == s
               else
                 var envelope := Envelope(s.minted, NextSequence(s.sequence), timeUs, Some(g), emitted.value.event);
                 && emitted.value.eventId == s.minted
                 && Due(s.config.safetyEnabled, event, verdict, emitted.value.event)
                 && after.log == s.log + [ToClient(Control(envelope))] +
                    if s.providerOpen && s.config.safetyEnabled && event.OutputTextDelta? && verdict.Intervene?
                    then [ToProvider(CancelGeneration(g))] else []
  {
  }

  // Silence is kept exactly for a delta that the gate holds or releases nothing of.
  lemma EmittedUnlessHeld(s: SessionState, event: Event, g: Id, timeUs: nat, verdict: SafetyVerdict)
    ensures EventEmitted(s, event, g, timeUs, verdict).1.None? <==>
              s.config.safetyEnabled && event.OutputTextDelta? && (verdict.Hold? || verdict == Release(""))
  {
  }

  // The log after an accepted event: what the check wrote, what is said, and then only evidence and outcomes.
  lemma EventSays(s: SessionState, g: Id, event: Event, timeUs: nat, o: Oracle)
    ensures var (sent, emitted) := EventEmitted(s, event, g, timeUs, o.verdict);
            var after := EventAccepted(s, g, event, timeUs, o);
            && s.log <= sent.log && Says(sent, after, {Citation, Verdict})
  {
    hide Says, EventEmitted, EvidenceCollected, Finished, CompletesGeneration, NoneAdmitted;
    var (sent, emitted) := EventEmitted(s, event, g, timeUs, o.verdict);
    var collected := EvidenceCollected(sent, g, emitted, timeUs, o.evidenceOrder, o.clockMs);
    EmittedIs(s, event, g, timeUs, o.verdict);
    CollectedAdds(sent, g, emitted, timeUs, o.evidenceOrder, o.clockMs);
    FinishedAdds(collected, g, timeUs, o.completionOrder, o.clockMs);
    AddsTrans(sent, collected, Finished(collected, g, timeUs, o.completionOrder, o.clockMs), {Citation}, {Verdict});
    AddsWider(sent, collected, {Citation}, {Citation, Verdict});
    assert {Citation} + {Verdict} == {Citation, Verdict};
  }

  // The position at which an accepted event is answered, if it is.
  lemma EventSpeaksAt(s: SessionState, g: Id, event: Event, timeUs: nat, o: Oracle, i: nat)
    requires |s.log| <= i < |EventAccepted(s, g, event, timeUs, o).log|
    requires KindOf(EventAccepted(s, g, event, timeUs, o).log[i]) == Speech
    ensures var entry := EventAccepted(s, g, event, timeUs, o).log[i];
            && i == |s.log| && EventEmitted(s, event, g, timeUs, o.verdict).1.Some?
            && entry.ToClient? && entry.message.Control?
            && entry.message.envelope.generation == Some(g) && entry.message.envelope.mediaTimeUs == timeUs
            && Due(s.config.safetyEnabled, event, o.verdict, entry.message.envelope.event)
  {
    var (sent, emitted) := EventEmitted(s, event, g, timeUs, o.verdict);
    var after := EventAccepted(s, g, event, timeUs, o);
    EventSays(s, g, event, timeUs, o);
    EmittedIs(s, event, g, timeUs, o.verdict);
    hide EventEmitted, EventAccepted, Due;
    assert after.log[..|sent.log|] == sent.log;
    assert i < |sent.log| ==> after.log[i] == sent.log[i];
  }

  lemma AcceptedSpeaks(s: SessionState, e: Emission, o: Oracle, i: nat)
    requires IsAccepted(s, e)
    requires |s.log| <= i < |EmissionHandled(s, e, o).log| && KindOf(EmissionHandled(s, e, o).log[i]) == Speech
    ensures SaidFor(s, Input(FromProvider(e), o), EmissionHandled(s, e, o).log[i])
    ensures i == |Checked(s, e.mediaOffsetUs, e.output, o).log|
  {
    var after := EmissionHandled(s, e, o);
    var checked := Checked(s, e.mediaOffsetUs, e.output, o);
    var timeUs, g := MediaTime(s, e.mediaOffsetUs), e.generation.value;
    AcceptedIs(s, e, o);
    CheckedAdds(s, e.mediaOffsetUs, e.output, o);
    CheckedKeepsConfig(s, e.mediaOffsetUs, e.output, o);
    hide EmissionHandled, EventAccepted, Checked, Due, NoneAdmitted, MediaTime, KindOf;
    match e.output {
      case ProviderEvent(event) =>
        EventAdds(checked, g, event, timeUs, o);
        KindComesAfter(s, checked, after, {Mark, Timeout}, i);
        EventSpeaksAt(checked, g, event, timeUs, o, i);
      case Audio =>
        MediaAdds(checked, timeUs, g, o.mediaFull);
        hide MediaSent;
        AddsTrans(s, checked, MediaSent(checked, timeUs, g, o.mediaFull), {Mark, Timeout}, {Sound});
    }
  }

  lemma SpeechIsAnswer(s: SessionState, input: Input, i: nat)
    requires |s.log| <= i < |Step(s, input).log| && KindOf(Step(s, input).log[i]) == Speech
    ensures s.open && input.stimulus.FromProvider? && IsAccepted(s, input.stimulus.emission)
  {
    StepAdds(s, input);
    hide EmissionHandled, IsAccepted;
    var e, o := input.stimulus.emission, input.oracle;
    if !IsAccepted(s, e) {
      NotAcceptedIs(s, e, o);
    }
  }

  lemma StepIsAnswer(s: SessionState, input: Input)
    requires s.open && input.stimulus.FromProvider?
    ensures Step(s, input) == EmissionHandled(s, input.stimulus.emission, input.oracle)
  {
    hide EmissionHandled;
  }

  lemma StepSpeaks(s: SessionState, input: Input, i: nat)
    requires |s.log| <= i < |Step(s, input).log| && KindOf(Step(s, input).log[i]) == Speech
    ensures SaidFor(s, input, Step(s, input).log[i])
    ensures forall j :: |s.log| <= j < |Step(s, input).log| && KindOf(Step(s, input).log[j]) == Speech ==> j == i
  {
    hide Step, SaidFor, KindOf, EmissionHandled, Checked;
    SpeechIsAnswer(s, input, i);
    StepIsAnswer(s, input);
    var e, o := input.stimulus.emission, input.oracle;
    assert input == Input(FromProvider(e), o);
    forall j | |s.log| <= j < |Step(s, input).log| && KindOf(Step(s, input).log[j]) == Speech
      ensures j == |Checked(s, e.mediaOffsetUs, e.output, o).log| && SaidFor(s, input, Step(s, input).log[j])
    {
      AcceptedSpeaks(s, e, o, j);
    }
  }

  lemma NotAcceptedIs(s: SessionState, e: Emission, o: Oracle)
    requires !IsAccepted(s, e)
    ensures EmissionHandled(s, e, o) ==
              if e.generation.None? && e.output.ProviderEvent? then Sent(s, e.mediaOffsetUs, e.output.event, None)
              else s
  {
    hide Accepted;
  }

  predicate IsText(e: Entry) {
    e.ToClient? && e.message.Control? && e.message.envelope.generation.Some? &&
    (e.message.envelope.event.OutputTextDelta? || e.message.envelope.event.OutputTextFinal?)
  }

  // Whatever text a run sends for a generation, each piece of it answers one event of that generation
  // accepted while it was active and leased, and is due to it.
  lemma OnlyDueTextIsSaid(config: Config, inputs: seq<Input>, i: nat)
    requires i < |Run(config, inputs).log| && IsText(Run(config, inputs).log[i])
    ensures exists k: nat :: WrittenAt(config, inputs, k, i) &&
              SaidFor(Run(config, inputs[..k]), inputs[k], Run(config, inputs).log[i])
  {
    GreetingIsNoText(config, inputs);
    var k := StepOfEntry(config, inputs, i);
    hide SaidFor, Step;
    StepSpeaks(Run(config, inputs[..k]), inputs[k], i);
  }

  lemma {:induction false} GreetingIsNoText(config: Config, inputs: seq<Input>)
    ensures var log := Run(config, inputs).log; 0 < |log| && !IsText(log[0])
  {
    if inputs != [] {
      var front := inputs[..|inputs| - 1];
      GreetingIsNoText(config, front);
      StepAdds(Run(config, front), inputs[|inputs| - 1]);
      hide Step, IsText;
      assert Run(config, inputs).log[0] == Run(config, inputs).log[..|Run(config, front).log|][0];
    }
  }

  // ---------- what is held back ----------

  // The evidence held for the tasks that are still active is what it was.
  ghost predicate SameEvidence(t: TaskState, after: TaskState) {
    && after.linksBySource == t.linksBySource && after.linksByTarget == t.linksByTarget
    && forall id :: id in after.active ==> id in t.active && after.active[id] == t.active[id]
  }

  lemma {:induction false} ResolvedSameEvidence(t: TaskState, ids: seq<Id>, result: TaskResult)
    ensures SameEvidence(t, Resolved(t, ids, result))
  {
    if ids != [] {
      ResolvedSameEvidence(t, ids[..|ids| - 1], result);
    }
  }

  lemma {:induction false} OutcomesSameEvidence(s: SessionState, timeUs: nat, outcomes: seq<TaskOutcome>, clockMs: nat)
    ensures var after := OutcomesSent(s, timeUs, outcomes, clockMs);
            && after.tasks.active == s.tasks.active && after.active == s.active
            && after.tasks.linksBySource == s.tasks.linksBySource && after.tasks.linksByTarget == s.tasks.linksByTarget
  {
    if outcomes != [] {
      OutcomesSameEvidence(s, timeUs, outcomes[..|outcomes| - 1], clockMs);
    }
  }

  lemma {:induction false} MarksSameTasks(s: SessionState, timeUs: nat, g: Id, phases: seq<LatencyPhase>)
    ensures var after := MarksSent(s, timeUs, g, phases);
            after.tasks == s.tasks && after.active == s.active && after.lease == s.lease
  {
    if phases != [] {
      MarksSameTasks(s, timeUs, g, phases[..|phases| - 1]);
    }
  }

  lemma CheckedSameEvidence(s: SessionState, offsetUs: nat, output: ProviderOutput, o: Oracle)
    requires s.active.Some?
    ensures SameEvidence(s.tasks, Checked(s, offsetUs, output, o).tasks)
    ensures Checked(s, offsetUs, output, o).active.Some?
    ensures Checked(s, offsetUs, output, o).active.value.id == s.active.value.id
  {
    var (latency, marks) := Observe(s.active.value.latency, output);
    var timeUs := MediaTime(s, offsetUs);
    var observed := s.(active := Some(s.active.value.(latency := latency)));
    hide Observe, SameEvidence;
    MarksSameTasks(observed, timeUs, s.active.value.id, marks);
    hide MarksSent;
    var marked := MarksSent(observed, timeUs, s.active.value.id, marks);
    var ids := Arrange(o.expiryOrder, Expired(marked.tasks, timeUs / 1000));
    ResolvedSameEvidence(marked.tasks, ids, Failure);
    OutcomesSameEvidence(marked.(tasks := Resolved(marked.tasks, ids, Failure)), timeUs,
                         TimedOutOutcomes(marked.tasks, ids), o.clockMs);
    SameEvidenceOutside(marked.tasks, Resolved(marked.tasks, ids, Failure), Checked(s, offsetUs, output, o).tasks);
  }

  lemma SameEvidenceOutside(t: TaskState, u: TaskState, after: TaskState)
    requires SameEvidence(t, u) && after.active == u.active
    requires after.linksBySource == u.linksBySource && after.linksByTarget == u.linksByTarget
    ensures SameEvidence(t, after)
  {
  }

  // A delta that the gate holds, or of which it releases nothing, leaves only latency marks and elapsed
  // deadlines behind: nothing is said, nothing becomes evidence, and the generation goes on.
  lemma HeldTextIsSilent(s: SessionState, input: Input)
    requires s.open && s.config.safetyEnabled && input.stimulus.FromProvider?
    requires var e := input.stimulus.emission;
             IsAccepted(s, e) && e.output.ProviderEvent? && e.output.event.OutputTextDelta?
    requires input.oracle.verdict.Hold? || input.oracle.verdict == Release("")
    ensures var after := Step(s, input);
            && Says(s, after, {Mark, Timeout}) && SameEvidence(s.tasks, after.tasks)
            && after.active.Some? && after.active.value.id == s.active.value.id
  {
    var e, o := input.stimulus.emission, input.oracle;
    var checked := Checked(s, e.mediaOffsetUs, e.output, o);
    StepIsAnswer(s, input);
    AcceptedIs(s, e, o);
    CheckedAdds(s, e.mediaOffsetUs, e.output, o);
    CheckedKeepsConfig(s, e.mediaOffsetUs, e.output, o);
    CheckedSameEvidence(s, e.mediaOffsetUs, e.output, o);
    EmittedUnlessHeld(checked, e.output.event, e.generation.value, MediaTime(s, e.mediaOffsetUs), o.verdict);
    EmittedIs(checked, e.output.event, e.generation.value, MediaTime(s, e.mediaOffsetUs), o.verdict);
    hide Step, EmissionHandled, Checked, EventEmitted, SameEvidence, NoneAdmitted, Says, MediaTime;
  }

  // ---------- what is let through ----------

  // Every other accepted event is answered once; an intervention on a delta, and nothing else of an
  // emission, cuts the provider short.
  lemma TextIsSaid(s: SessionState, input: Input)
    requires s.open && input.stimulus.FromProvider? && IsAccepted(s, input.stimulus.emission)
    requires input.stimulus.emission.output.ProviderEvent?
    ensures var e, after, verdict := input.stimulus.emission, Step(s, input), input.oracle.verdict;
            var held := s.config.safetyEnabled && e.output.event.OutputTextDelta? &&
                        (verdict.Hold? || verdict == Release(""));
            var cut := s.config.safetyEnabled && e.output.event.OutputTextDelta? && verdict.Intervene?;
            && (!held ==> exists i :: |s.log| <= i < |after.log| && SaidFor(s, input, after.log[i]))
            && (Written(s, after, ToProvider(CancelGeneration(e.generation.value))) <==> s.providerOpen && cut)
  {
    var e, o := input.stimulus.emission, input.oracle;
    var event, g, timeUs := e.output.event, e.generation.value, MediaTime(s, e.mediaOffsetUs);
    var checked := Checked(s, e.mediaOffsetUs, e.output, o);
    var after := Step(s, input);
    StepIsAnswer(s, input);
    AcceptedIs(s, e, o);
    CheckedAdds(s, e.mediaOffsetUs, e.output, o);
    CheckedKeepsConfig(s, e.mediaOffsetUs, e.output, o);
    EmittedUnlessHeld(checked, event, g, timeUs, o.verdict);
    EmittedIs(checked, event, g, timeUs, o.verdict);
    EventSays(checked, g, event, timeUs, o);
    var sent := EventEmitted(checked, event, g, timeUs, o.verdict).0;
    var cancel := ToProvider(CancelGeneration(g));
    CutExactly(checked, event, g, timeUs, o.verdict);
    hide Step, EmissionHandled, Checked, EventEmitted, EventAccepted, NoneAdmitted, MediaTime;
    NotOfKind(s, checked, {Mark, Timeout}, cancel);
    NotOfKind(sent, after, {Citation, Verdict}, cancel);
    hide Says, KindOf;
    WrittenSplits(s, checked, after, cancel);
    WrittenSplits(checked, sent, after, cancel);
    if |sent.log| > |checked.log| {
      assert after.log[|checked.log|] == sent.log[|checked.log|];
      assert SaidFor(s, input, after.log[|checked.log|]);
    }
  }

  lemma CutExactly(s: SessionState, event: Event, g: Id, timeUs: nat, verdict: SafetyVerdict)
    ensures Written(s, EventEmitted(s, event, g, timeUs, verdict).0, ToProvider(CancelGeneration(g))) <==>
              s.providerOpen && s.config.safetyEnabled && event.OutputTextDelta? && verdict.Intervene?
  {
    var (after, emitted) := EventEmitted(s, event, g, timeUs, verdict);
    EmittedIs(s, event, g, timeUs, verdict);
    EmittedUnlessHeld(s, event, g, timeUs, verdict);
    hide EventEmitted, Due;
    var added := after.log[|s.log|..];
    if emitted.Some? {
      var envelope := Envelope(s.minted, NextSequence(s.sequence), timeUs, Some(g), emitted.value.event);
      assert added == [ToClient(Control(envelope))] +
                      if s.providerOpen && s.config.safetyEnabled && event.OutputTextDelta? && verdict.Intervene?
                      then [ToProvider(CancelGeneration(g))] else [];
    }
  }

  // An entry of another kind was not written.
  lemma NotOfKind(s: SessionState, after: SessionState, kinds: set<Kind>, e: Entry)
    requires Says(s, after, kinds) && KindOf(e) !in kinds
    ensures !Written(s, after, e) && s.log <= after.log
  {
    hide KindOf;
    var added := after.log[|s.log|..];
    forall i | 0 <= i < |added|
      ensures added[i] != e
    {
      assert added[i] == after.log[|s.log| + i];
    }
  }

  // ---------- everything else a provider emits ----------

  // An event of no generation is passed on as it is, at its own time; audio of none, and anything of a
  // generation that is not both leased and active, changes nothing.
  lemma OthersAreIgnored(s: SessionState, input: Input)
    requires s.open && input.stimulus.FromProvider? && !IsAccepted(s, input.stimulus.emission)
    ensures var e, after := input.stimulus.emission, Step(s, input);
            if e.generation.None? && e.output.ProviderEvent?
            then
              && |after.log| == |s.log| + 1 && SentEvent(s, after, None, e.mediaOffsetUs, e.output.event)
              && after.tasks == s.tasks && after.active == s.active && after.lease == s.lease
            else after == s
  {
    var e, after := input.stimulus.emission, Step(s, input);
    StepIsAnswer(s, input);
    NotAcceptedIs(s, e, input.oracle);
    hide Step, EmissionHandled;
    if e.generation.None? && e.output.ProviderEvent? {
      WrittenLast(s, after, after.log[|s.log|]);
    }
  }

  predicate IsSound(e: Entry, timeUs: nat, g: Id) {
    e.ToClient? && e.message.Media? && e.message.mediaTimeUs == timeUs && e.message.generation == g
  }

  // Accepted audio is sent on unless the gate withholds it or the channel is full, and the generation
  // goes on either way.
  lemma AudioIsSent(s: SessionState, input: Input)
    requires s.open && input.stimulus.FromProvider? && IsAccepted(s, input.stimulus.emission)
    requires input.stimulus.emission.output.Audio?
    ensures var e, after, o := input.stimulus.emission, Step(s, input), input.oracle;
            && ((exists i :: |s.log| <= i < |after.log| &&
                   IsSound(after.log[i], MediaTime(s, e.mediaOffsetUs), e.generation.value)) <==>
                !(s.config.safetyEnabled && o.audioWithheld) && !o.mediaFull)
            && after.active.Some? && after.active.value.id == s.active.value.id
  {
    var e, o := input.stimulus.emission, input.oracle;
    var checked, after := Checked(s, e.mediaOffsetUs, e.output, o), Step(s, input);
    var timeUs, g := MediaTime(s, e.mediaOffsetUs), e.generation.value;
    StepIsAnswer(s, input);
    AcceptedIs(s, e, o);
    CheckedAdds(s, e.mediaOffsetUs, e.output, o);
    CheckedKeepsConfig(s, e.mediaOffsetUs, e.output, o);
    CheckedSameEvidence(s, e.mediaOffsetUs, e.output, o);
    hide Step, EmissionHandled, Checked, NoneAdmitted, MediaTime, SameEvidence;
    forall i | |s.log| <= i < |checked.log|
      ensures !IsSound(after.log[i], timeUs, g)
    {
      assert after.log[i] == checked.log[i];
      assert KindOf(checked.log[i]) in {Mark, Timeout};
    }
    if !(s.config.safetyEnabled && o.audioWithheld) && !o.mediaFull {
      assert IsSound(after.log[|checked.log|], timeUs, g);
    }
  }

  // ---------- latency marks ----------

  // The marks due when this output is accepted and these have been sent before.
  predicate MarkDue(l: LatencyTracker, output: ProviderOutput, phase: LatencyPhase) {
    match phase
    case FirstProviderEvent => !l.firstProviderEvent
    case FirstTextDelta => !l.firstTextDelta && output.ProviderEvent? && output.event.OutputTextDelta?
    case FirstAudioFrame => !l.firstAudioFrame && output.Audio?
    case ProviderComplete => output == ProviderEvent(ProviderState(Complete))
    case _ => false
  }

  lemma {:induction false} MarksAreSent(s: SessionState, timeUs: nat, g: Id, phases: seq<LatencyPhase>,
                                        phase: LatencyPhase)
    ensures var after := MarksSent(s, timeUs, g, phases);
            && s.log <= after.log && after.active == s.active
            && (SentEvent(s, after, Some(g), timeUs, LatencyMark(phase)) <==> phase in phases)
  {
    if phases == [] {
      assert s.log[|s.log|..] == [];
    } else {
      var front, last := phases[..|phases| - 1], phases[|phases| - 1];
      var t := MarksSent(s, timeUs, g, front);
      var after := MarksSent(s, timeUs, g, phases);
      MarksAreSent(s, timeUs, g, front, phase);
      assert after == Sent(t, timeUs, LatencyMark(last), Some(g));
      assert phase in phases <==> phase in front || phase == last;
      hide MarksSent;
      OneMoreSent(s, t, timeUs, g, LatencyMark(last), LatencyMark(phase));
    }
  }

  lemma OneMoreSent(s: SessionState, t: SessionState, timeUs: nat, g: Id, event: Event, other: Event)
    requires s.log <= t.log
    ensures var after := Sent(t, timeUs, event, Some(g));
            && s.log <= after.log && after.active == t.active
            && (SentEvent(s, after, Some(g), timeUs, other) <==>
                SentEvent(s, t, Some(g), timeUs, other) || other == event)
  {
    var after := Sent(t, timeUs, event, Some(g));
    var e := after.log[|t.log|];
    WrittenLast(t, after, e);
    if SentEvent(s, t, Some(g), timeUs, other) {
      SentLater(s, t, after, Some(g), timeUs, other);
    }
    if other == event {
      WrittenSince(s, t, after, e);
    }
    if SentEvent(s, after, Some(g), timeUs, other) {
      var id: Id, n: nat :| Written(s, after, ToClient(Control(Envelope(id, n, timeUs, Some(g), other))));
      WrittenSplits(s, t, after, ToClient(Control(Envelope(id, n, timeUs, Some(g), other))));
    }
  }

  lemma ObserveIs(l: LatencyTracker, output: ProviderOutput, phase: LatencyPhase)
    ensures var (after, marks) := Observe(l, output);
            && (phase in marks <==> MarkDue(l, output, phase))
            && after.firstProviderEvent
            && after.firstTextDelta == (l.firstTextDelta || (output.ProviderEvent? && output.event.OutputTextDelta?))
            && after.firstAudioFrame == (l.firstAudioFrame || output.Audio?)
  {
  }

  // Before anything else an accepted emission brings exactly the latency marks that are due, at its media
  // time: each first of a generation once, its completion whenever it comes.
  lemma MarksAreDue(s: SessionState, input: Input, phase: LatencyPhase)
    requires s.open && input.stimulus.FromProvider? && IsAccepted(s, input.stimulus.emission)
    requires input.stimulus.emission.output.ProviderEvent? ==>
               !input.stimulus.emission.output.event.LatencyMark?
    ensures var e, after := input.stimulus.emission, Step(s, input);
            var l := s.active.value.latency;
            && (SentEvent(s, after, e.generation, MediaTime(s, e.mediaOffsetUs), LatencyMark(phase)) <==>
                MarkDue(l, e.output, phase))
            && (after.active.Some? ==>
                  var later := after.active.value.latency;
                  && later.firstProviderEvent
                  && later.firstTextDelta ==
                       (l.firstTextDelta || (e.output.ProviderEvent? && e.output.event.OutputTextDelta?))
                  && later.firstAudioFrame == (l.firstAudioFrame || e.output.Audio?))
  {
    var e, o := input.stimulus.emission, input.oracle;
    var timeUs, g := MediaTime(s, e.mediaOffsetUs), e.generation.value;
    var checked, after := Checked(s, e.mediaOffsetUs, e.output, o), Step(s, input);
    StepIsAnswer(s, input);
    AcceptedIs(s, e, o);
    CheckedMarks(s, e.mediaOffsetUs, e.output, o, phase);
    CheckedAdds(s, e.mediaOffsetUs, e.output, o);
    AfterCheckNoMark(checked, e, timeUs, o, phase);
    hide Step, EmissionHandled, EventAccepted, Checked, NoneAdmitted, MarkDue, MediaTime, Says, KindOf;
    SaysGrows(s, checked, {Mark, Timeout});
    NoMoreMarks(s, checked, after, e.generation, timeUs, phase);
  }

  lemma NoMoreMarks(s: SessionState, t: SessionState, after: SessionState, g: Option<Id>, timeUs: nat,
                    phase: LatencyPhase)
    requires s.log <= t.log <= after.log && !SentEvent(t, after, g, timeUs, LatencyMark(phase))
    ensures SentEvent(s, after, g, timeUs, LatencyMark(phase)) <==> SentEvent(s, t, g, timeUs, LatencyMark(phase))
  {
    if SentEvent(s, t, g, timeUs, LatencyMark(phase)) {
      SentLater(s, t, after, g, timeUs, LatencyMark(phase));
    }
    if SentEvent(s, after, g, timeUs, LatencyMark(phase)) {
      var id: Id, n: nat :| Written(s, after, ToClient(Control(Envelope(id, n, timeUs, g, LatencyMark(phase)))));
      WrittenSplits(s, t, after, ToClient(Control(Envelope(id, n, timeUs, g, LatencyMark(phase)))));
    }
  }

  lemma CheckedMarks(s: SessionState, offsetUs: nat, output: ProviderOutput, o: Oracle, phase: LatencyPhase)
    requires s.active.Some?
    ensures var after := Checked(s, offsetUs, output, o);
            && (SentEvent(s, after, Some(s.active.value.id), MediaTime(s, offsetUs), LatencyMark(phase)) <==>
                MarkDue(s.active.value.latency, output, phase))
            && after.active == Some(s.active.value.(latency := Observe(s.active.value.latency, output).0))
  {
    var (latency, marks) := Observe(s.active.value.latency, output);
    var timeUs := MediaTime(s, offsetUs);
    var observed := s.(active := Some(s.active.value.(latency := latency)));
    var marked := MarksSent(observed, timeUs, s.active.value.id, marks);
    var after := Checked(s, offsetUs, output, o);
    ObserveIs(s.active.value.latency, output, phase);
    MarksAreSent(observed, timeUs, s.active.value.id, marks, phase);
    TimeoutsAdd(marked, timeUs, o.expiryOrder, o.clockMs);
    DeadlinesKeepActive(marked, timeUs, o.expiryOrder, o.clockMs);
    hide Observe, MarksSent, DeadlinesEnforced, NoneAdmitted, MarkDue;
    forall id: Id, n: nat
      ensures !Written(marked, after, ToClient(Control(Envelope(id, n, timeUs, Some(s.active.value.id),
                                                                LatencyMark(phase)))))
    {
      NotOfKind(marked, after, {Timeout},
                ToClient(Control(Envelope(id, n, timeUs, Some(s.active.value.id), LatencyMark(phase)))));
    }
    hide KindOf;
    NoMoreMarks(s, marked, after, Some(s.active.value.id), timeUs, phase);
  }

  lemma DeadlinesKeepActive(s: SessionState, timeUs: nat, order: seq<Id>, clockMs: nat)
    ensures DeadlinesEnforced(s, timeUs, order, clockMs).active == s.active
  {
    var ids := Arrange(order, Expired(s.tasks, timeUs / 1000));
    OutcomesSameEvidence(s.(tasks := Resolved(s.tasks, ids, Failure)), timeUs, TimedOutOutcomes(s.tasks, ids), clockMs);
  }

  lemma {:induction false} AttachedKeepsActive(s: SessionState, ids: seq<Id>, kind: EvidenceKind, evidence: Id,
                                               timeUs: nat, clockMs: nat)
    ensures AttachedToAll(s, ids, kind, evidence, timeUs, clockMs).active == s.active
  {
    if ids != [] {
      AttachedKeepsActive(s, ids[..|ids| - 1], kind, evidence, timeUs, clockMs);
    }
  }

  // Past the check no mark is sent but one the provider itself emits, and the tracker stays.
  lemma AfterCheckNoMark(s: SessionState, e: Emission, timeUs: nat, o: Oracle, phase: LatencyPhase)
    requires e.generation.Some? && (e.output.ProviderEvent? ==> !e.output.event.LatencyMark?)
    ensures var g := e.generation.value;
            var after := match e.output
                         case ProviderEvent(event) => EventAccepted(s, g, event, timeUs, o)
                         case Audio => if s.config.safetyEnabled && o.audioWithheld then s
                                       else MediaSent(s, timeUs, g, o.mediaFull);
            && s.log <= after.log && !SentEvent(s, after, e.generation, timeUs, LatencyMark(phase))
            && (after.active.Some? ==> after.active == s.active)
  {
    var g := e.generation.value;
    match e.output {
      case ProviderEvent(event) => EventNoMark(s, g, event, timeUs, o, phase);
      case Audio =>
        var after := MediaSent(s, timeUs, g, o.mediaFull);
        assert s.log[|s.log|..] == [];
        assert after.log[|s.log|..] == if o.mediaFull then [] else [after.log[|s.log|]];
    }
  }

  lemma EventNoMark(s: SessionState, g: Id, event: Event, timeUs: nat, o: Oracle, phase: LatencyPhase)
    requires !event.LatencyMark?
    ensures var after := EventAccepted(s, g, event, timeUs, o);
            && s.log <= after.log && !SentEvent(s, after, Some(g), timeUs, LatencyMark(phase))
            && (after.active.Some? ==> after.active == s.active)
  {
    var (sent, emitted) := EventEmitted(s, event, g, timeUs, o.verdict);
    var after := EventAccepted(s, g, event, timeUs, o);
    EmittedIs(s, event, g, timeUs, o.verdict);
    EventSays(s, g, event, timeUs, o);
    EventKeepsActive(s, g, event, timeUs, o);
    hide EventEmitted, EventAccepted;
    forall id: Id, n: nat
      ensures !Written(s, after, ToClient(Control(Envelope(id, n, timeUs, Some(g), LatencyMark(phase)))))
    {
      var e := ToClient(Control(Envelope(id, n, timeUs, Some(g), LatencyMark(phase))));
      NotOfKind(sent, after, {Citation, Verdict}, e);
      WrittenSplits(s, sent, after, e);
    }
  }

  lemma EventKeepsActive(s: SessionState, g: Id, event: Event, timeUs: nat, o: Oracle)
    ensures var after := EventAccepted(s, g, event, timeUs, o); after.active.Some? ==> after.active == s.active
  {
    var (sent, emitted) := EventEmitted(s, event, g, timeUs, o.verdict);
    var collected := EvidenceCollected(sent, g, emitted, timeUs, o.evidenceOrder, o.clockMs);
    EmittedIs(s, event, g, timeUs, o.verdict);
    hide EventEmitted, AttachedToAll, OutcomesSent;
    if emitted.Some? && Classify(emitted.value.event).Some? {
      AttachedKeepsActive(sent, Arrange(o.evidenceOrder, BoundTo(sent.tasks, g)), Classify(emitted.value.event).value,
                          emitted.value.eventId, timeUs, o.clockMs);
    }
    var ids := Arrange(o.completionOrder, BoundTo(collected.tasks, g));
    OutcomesSameEvidence(collected.(active := None, tasks := Resolved(collected.tasks, ids, Success)), timeUs,
                         CompletedOutcomes(collected.tasks, ids), o.clockMs);
  }
}
