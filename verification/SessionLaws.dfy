// What single steps do, in the terms of the two channels and the ledger.
module SessionLaws {
  import opened Protocol
  import opened AnswerLease
  import opened TaskLedger
  import opened Session
  import opened WireInvariant
  import opened LedgerInvariant
  import opened BufferInvariant
  import opened SessionInvariant
  import opened SessionSteps
  import opened SessionTheorems
  import opened Stall
  import opened Egress

  // Entry `e` is among those written since `s`.
  ghost predicate Written(s: SessionState, after: SessionState, e: Entry) {
    |s.log| <= |after.log| && e in after.log[|s.log|..]
  }

  // An event was sent under this generation, or none, at this time.
  ghost predicate SentEvent(s: SessionState, after: SessionState, g: Option<Id>, timeUs: nat, event: Event) {
    exists id: Id, n: nat :: Written(s, after, ToClient(Control(Envelope(id, n, timeUs, g, event))))
  }

  // `after` grew out of `s` over `t`, so what was written before `t` was written.
  lemma WrittenLater(s: SessionState, t: SessionState, after: SessionState, e: Entry)
    requires Written(s, t, e) && t.log <= after.log
    ensures Written(s, after, e)
  {
    var i :| 0 <= i < |t.log[|s.log|..]| && t.log[|s.log|..][i] == e;
    assert after.log[|s.log|..][i] == e;
  }

  lemma WrittenSince(s: SessionState, t: SessionState, after: SessionState, e: Entry)
    requires Written(t, after, e) && s.log <= t.log
    ensures Written(s, after, e)
  {
    var i :| 0 <= i < |after.log[|t.log|..]| && after.log[|t.log|..][i] == e;
    assert after.log[|s.log|..][i + |t.log| - |s.log|] == e;
  }

  lemma WrittenSplits(s: SessionState, t: SessionState, after: SessionState, e: Entry)
    requires s.log <= t.log <= after.log
    ensures Written(s, after, e) <==> Written(s, t, e) || Written(t, after, e)
  {
    assert after.log[|s.log|..] == t.log[|s.log|..] + after.log[|t.log|..];
  }

  lemma WrittenLast(s: SessionState, after: SessionState, e: Entry)
    requires after.log == s.log + [e]
    ensures Written(s, after, e)
  {
    assert after.log[|s.log|..] == [e];
  }

  lemma SaysGrows(s: SessionState, after: SessionState, kinds: set<Kind>)
    requires Says(s, after, kinds)
    ensures s.log <= after.log
  {
  }

  // ---------- a response begins ----------

  // A generation has begun at this time: it is new, leased, has taken over every task that had none,
  // the browser has its mark, and the provider its commit, or failing that the browser an error.
  ghost predicate Begins(s: SessionState, after: SessionState, timeUs: nat) {
    && after.active.Some? && after.active.value.baseUs == timeUs
    && after.active.value.latency == LatencyTracker(false, false, false)
    && var g := after.active.value.id;
       && s.minted <= g < after.minted && Accepts(after.lease, g)
       && after.tasks.active.Keys == s.tasks.active.Keys
       && (forall id :: id in s.tasks.active ==>
             after.tasks.active[id].generation ==
             if s.tasks.active[id].generation.Some? then s.tasks.active[id].generation else Some(g))
       && SentEvent(s, after, Some(g), timeUs, LatencyMark(ResponseCommitted))
       && (if s.providerOpen then Written(s, after, ToProvider(CommitResponse(g, after.lease.version, timeUs)))
           else SentEvent(s, after, None, timeUs, ErrorEvent("provider_closed")))
  }

  lemma StartedBegins(s: SessionState, timeUs: nat)
    requires s.active.None?
    ensures Begins(s, Started(s, timeUs), timeUs)
  {
    StartedTakesFloor(s, timeUs);
    hide Begun, Started;
    StartedSays(s, timeUs);
  }

  lemma StartedTakesFloor(s: SessionState, timeUs: nat)
    requires s.active.None?
    ensures var after, g := Started(s, timeUs), s.minted;
            && after.active.Some? && after.active.value.id == g && after.active.value.baseUs == timeUs
            && after.active.value.latency == LatencyTracker(false, false, false)
            && g < after.minted && Accepts(after.lease, g)
            && after.tasks.active.Keys == s.tasks.active.Keys
            && (forall id :: id in s.tasks.active ==>
                  after.tasks.active[id].generation ==
                  if s.tasks.active[id].generation.Some? then s.tasks.active[id].generation else Some(g))
  {
    hide LeaseName;
    var after := Started(s, timeUs);
    assert after.tasks == PendingBound(s.tasks, s.minted);
  }

  lemma StartedSays(s: SessionState, timeUs: nat)
    requires s.active.None?
    ensures var after, g := Started(s, timeUs), s.minted;
            && SentEvent(s, after, Some(g), timeUs, LatencyMark(ResponseCommitted))
            && (if s.providerOpen then Written(s, after, ToProvider(CommitResponse(g, after.lease.version, timeUs)))
                else SentEvent(s, after, None, timeUs, ErrorEvent("provider_closed")))
  {
    var begun := Begun(s, timeUs);
    assert begun.log == s.log && begun.providerOpen == s.providerOpen;
    hide Begun;
    var marked := Sent(begun, timeUs, LatencyMark(ResponseCommitted), Some(s.minted));
    var after := Started(s, timeUs);
    var mark, last := marked.log[|s.log|], after.log[|marked.log|];
    WrittenLast(s, marked, mark);
    WrittenLater(s, marked, after, mark);
    WrittenLast(marked, after, last);
    WrittenSince(s, marked, after, last);
  }

  // A final transcript begins a response exactly when none is active.
  lemma TranscriptBegins(s: SessionState, timeUs: nat, o: Oracle)
    requires s.open
    ensures var after := Step(s, Input(TranscriptFinal(timeUs), o));
            if s.active.None? then Begins(s, after, timeUs) else after == s
  {
    hide Begins;
    if s.active.None? {
      StartedBegins(s, timeUs);
    }
  }

  // So does the engine's decision to respond; after any decisions that end with it one is active.
  lemma ResponseDecisionBegins(s: SessionState, input: Input)
    requires s.open && s.providerOpen && input.stimulus.AudioArrived? && input.stimulus.answer.Decisions?
    requires var actions := input.stimulus.answer.actions; actions != [] && actions[|actions| - 1] == StartResponse
    ensures var after := Step(s, input);
            && after.active.Some?
            && (s.active.None? && |input.stimulus.answer.actions| == 1 ==> Begins(s, after, input.stimulus.timeUs))
  {
    var t, actions := input.stimulus.timeUs, input.stimulus.answer.actions;
    var full, report, publish := input.stimulus.queueFull, input.stimulus.reportDrop, input.stimulus.publish;
    var offered := FrameOffered(s, t, full, report);
    var observed := Observed(offered, t, publish);
    var before := Decided(observed, actions[..|actions| - 1], t);
    var told := Sent(before, t, InteractionDecision(StartResponse), None);
    ObservedKeepsTasks(s, t, full, report, publish);
    assert Step(s, input) == Started(told, t);
    if told.active.None? {
      StartedBegins(told, t);
      if |actions| == 1 && s.active.None? {
        assert actions[..0] == [];
        ToldGrows(observed, t);
        hide FrameOffered, Observed, Started, Begins, Sent;
        BeginsSince(s, told, Started(told, t), t);
      }
    }
  }

  lemma ToldGrows(s: SessionState, timeUs: nat)
    ensures var told := Sent(s, timeUs, InteractionDecision(StartResponse), None);
            told.log == s.log + [told.log[|s.log|]] && told.tasks == s.tasks && told.minted >= s.minted &&
            told.providerOpen == s.providerOpen && told.active == s.active
  {
  }

  lemma ObservedKeepsTasks(s: SessionState, timeUs: nat, full: bool, report: bool, publish: bool)
    ensures var observed := Observed(FrameOffered(s, timeUs, full, report), timeUs, publish);
            && observed.tasks == s.tasks && observed.active == s.active && observed.lease == s.lease
            && observed.providerOpen == s.providerOpen && observed.minted >= s.minted && s.log <= observed.log
  {
    OfferedAdds(s, timeUs, full, report);
    ObservedAdds(FrameOffered(s, timeUs, full, report), timeUs, publish);
    SaysGrows(s, FrameOffered(s, timeUs, full, report), {Feed, Note});
  }

  lemma BeginsSince(s: SessionState, t: SessionState, after: SessionState, timeUs: nat)
    requires Begins(t, after, timeUs) && s.log <= t.log
    requires t.tasks == s.tasks && s.minted <= t.minted && t.providerOpen == s.providerOpen
    ensures Begins(s, after, timeUs)
  {
    var g := after.active.value.id;
    SentSince(s, t, after, Some(g), timeUs, LatencyMark(ResponseCommitted));
    if t.providerOpen {
      WrittenSince(s, t, after, ToProvider(CommitResponse(g, after.lease.version, timeUs)));
    } else {
      SentSince(s, t, after, None, timeUs, ErrorEvent("provider_closed"));
    }
  }

  lemma SentSince(s: SessionState, t: SessionState, after: SessionState, g: Option<Id>, timeUs: nat, event: Event)
    requires SentEvent(t, after, g, timeUs, event) && s.log <= t.log
    ensures SentEvent(s, after, g, timeUs, event)
  {
    var id: Id, n: nat :| Written(t, after, ToClient(Control(Envelope(id, n, timeUs, g, event))));
    WrittenSince(s, t, after, ToClient(Control(Envelope(id, n, timeUs, g, event))));
  }

  // ---------- a response is given up ----------

  // The active generation is given up: it has neither floor nor lease, the browser has its mark, the
  // provider its cancellation, and the browser is told to cut its audio off exactly on a hard yield.
  ghost predicate GivesUp(s: SessionState, after: SessionState, timeUs: nat, hard: bool)
    requires s.active.Some?
  {
    var g := s.active.value.id;
    && after.active.None? && !Accepts(after.lease, g) && after.tasks == s.tasks
    && SentEvent(s, after, Some(g), timeUs, LatencyMark(CancelRequested))
    && (s.providerOpen ==> Written(s, after, ToProvider(CancelGeneration(g))))
    && (SentEvent(s, after, Some(g), timeUs, OutputAudioCancel(timeUs)) <==> hard)
  }

  // The entries of a cancellation, in order.
  function CancelEntries(s: SessionState, timeUs: nat, hard: bool): seq<Entry>
    requires s.active.Some?
  {
    var g := s.active.value.id;
    var n := NextSequence(s.sequence);
    [ToClient(Control(Envelope(s.minted, n, timeUs, Some(g), LatencyMark(CancelRequested))))] +
    (if s.providerOpen then [ToProvider(CancelGeneration(g))] else []) +
    if !hard then []
    else [ToClient(Control(Envelope(s.minted + 1, NextSequence(n), timeUs, Some(g), OutputAudioCancel(timeUs))))]
  }

  lemma InterruptedIs(s: SessionState, action: InteractionAction, timeUs: nat)
    requires s.active.Some?
    ensures var after := Interrupted(s, action, timeUs);
            && after.log == s.log + CancelEntries(s, timeUs, action == HardYield) && after.tasks == s.tasks
            && after.active.None? && !Accepts(after.lease, s.active.value.id)
  {
  }

  lemma InterruptedGivesUp(s: SessionState, action: InteractionAction, timeUs: nat)
    requires s.active.Some?
    ensures GivesUp(s, Interrupted(s, action, timeUs), timeUs, action == HardYield)
    ensures s.log <= Interrupted(s, action, timeUs).log
  {
    InterruptedIs(s, action, timeUs);
    hide Interrupted;
    var after := Interrupted(s, action, timeUs);
    var entries := CancelEntries(s, timeUs, action == HardYield);
    var g := s.active.value.id;
    assert after.log[|s.log|..] == entries;
    CancelEntriesSay(s, timeUs, action == HardYield);
    hide CancelEntries;
    assert Written(s, after, ToClient(Control(Envelope(s.minted, NextSequence(s.sequence), timeUs, Some(g),
                                                       LatencyMark(CancelRequested)))));
    if action == HardYield {
      assert Written(s, after, ToClient(Control(Envelope(s.minted + 1, NextSequence(NextSequence(s.sequence)), timeUs,
                                                         Some(g), OutputAudioCancel(timeUs)))));
    }
  }

  lemma CancelEntriesSay(s: SessionState, timeUs: nat, hard: bool)
    requires s.active.Some?
    ensures var entries, g, n := CancelEntries(s, timeUs, hard), s.active.value.id, NextSequence(s.sequence);
            && ToClient(Control(Envelope(s.minted, n, timeUs, Some(g), LatencyMark(CancelRequested)))) in entries
            && (s.providerOpen ==> ToProvider(CancelGeneration(g)) in entries)
            && (hard ==> ToClient(Control(Envelope(s.minted + 1, NextSequence(n), timeUs, Some(g),
                                                   OutputAudioCancel(timeUs)))) in entries)
            && (!hard ==> forall id: Id, m: nat ::
                  ToClient(Control(Envelope(id, m, timeUs, Some(g), OutputAudioCancel(timeUs)))) !in entries)
  {
    var entries := CancelEntries(s, timeUs, hard);
    assert entries[0] in entries;
    assert s.providerOpen ==> entries[1] == ToProvider(CancelGeneration(s.active.value.id));
    assert hard ==> entries[|entries| - 1] in entries;
  }

  // A client's barge-in gives the active generation up with a hard yield, and otherwise does nothing.
  lemma BargeInGivesUp(s: SessionState, timeUs: nat, o: Oracle)
    requires s.open
    ensures var after := Step(s, Input(BargeIn(timeUs), o));
            if s.active.Some? then GivesUp(s, after, timeUs, true) else after == s
  {
    hide GivesUp;
    if s.active.Some? {
      InterruptedGivesUp(s, HardYield, timeUs);
    }
  }

  // So does an engine decision to yield or to replan, the former with a cut-off and the latter without.
  lemma YieldDecisionGivesUp(s: SessionState, input: Input, action: InteractionAction)
    requires s.open && s.providerOpen && s.active.Some? && input.stimulus.AudioArrived? && Yields(action)
    requires input.stimulus.answer == Decisions([action])
    ensures GivesUp(s, Step(s, input), input.stimulus.timeUs, action == HardYield)
    ensures SentEvent(s, Step(s, input), if action == HardYield then Some(s.active.value.id) else None,
                      input.stimulus.timeUs, InteractionDecision(action))
  {
    var t := input.stimulus.timeUs;
    var observed := ObservedOf(s, input.stimulus);
    var tag := if action == HardYield then Some(s.active.value.id) else None;
    var told := Sent(observed, t, InteractionDecision(action), tag);
    YieldStep(s, input, action);
    ObservedKeepsTasks(s, t, input.stimulus.queueFull, input.stimulus.reportDrop, input.stimulus.publish);
    NoCutOffYet(s, t, input.stimulus.queueFull, input.stimulus.reportDrop, input.stimulus.publish, action);
    hide FrameOffered, Observed, Interrupted, Step, GivesUp;
    InterruptedGivesUp(told, action, t);
    GivesUpSince(s, told, Interrupted(told, action, t), t, action == HardYield);
    hide ObservedOf;
    WrittenLast(observed, told, told.log[|observed.log|]);
    WrittenSince(s, observed, told, told.log[|observed.log|]);
    WrittenLater(s, told, Interrupted(told, action, t), told.log[|observed.log|]);
  }

  // What is known once a frame has been offered and observed, before it is decided on.
  function ObservedOf(s: SessionState, a: Stimulus): SessionState
    requires a.AudioArrived?
  {
    Observed(FrameOffered(s, a.timeUs, a.queueFull, a.reportDrop), a.timeUs, a.publish)
  }

  lemma YieldStep(s: SessionState, input: Input, action: InteractionAction)
    requires s.open && s.providerOpen && s.active.Some? && input.stimulus.AudioArrived? && Yields(action)
    requires input.stimulus.answer == Decisions([action])
    ensures var tag := if action == HardYield then Some(s.active.value.id) else None;
            var t := input.stimulus.timeUs;
            Step(s, input) ==
              Interrupted(Sent(ObservedOf(s, input.stimulus), t, InteractionDecision(action), tag), action, t)
  {
    var a := input.stimulus;
    ObservedKeepsTasks(s, a.timeUs, a.queueFull, a.reportDrop, a.publish);
    hide FrameOffered, Observed, Interrupted, Decided, Acted, Sent;
    OneDecision(ObservedOf(s, a), action, a.timeUs);
  }

  lemma OneDecision(s: SessionState, action: InteractionAction, timeUs: nat)
    requires s.active.Some? && Yields(action)
    ensures var tag := if action == HardYield then Some(s.active.value.id) else None;
            Decided(s, [action], timeUs) ==
              Interrupted(Sent(s, timeUs, InteractionDecision(action), tag), action, timeUs)
  {
    hide Interrupted, Sent;
    assert [action][..0] == [];
    assert Decided(s, [], timeUs) == s;
  }

  // Nothing written before a decision is acted on cuts audio off.
  lemma NoCutOffYet(s: SessionState, t: nat, full: bool, report: bool, publish: bool, action: InteractionAction)
    requires s.active.Some?
    ensures var observed := Observed(FrameOffered(s, t, full, report), t, publish);
            var tag := if action == HardYield then Some(s.active.value.id) else None;
            var told := Sent(observed, t, InteractionDecision(action), tag);
            s.log <= told.log && forall e :: e in told.log[|s.log|..] && e.ToClient? && e.message.Control? ==>
              !e.message.envelope.event.OutputAudioCancel?
  {
  }

  lemma GivesUpSince(s: SessionState, t: SessionState, after: SessionState, timeUs: nat, hard: bool)
    requires s.active.Some? && t.active == s.active && t.tasks == s.tasks && t.providerOpen == s.providerOpen
    requires s.log <= t.log && GivesUp(t, after, timeUs, hard)
    requires forall e :: e in t.log[|s.log|..] && e.ToClient? && e.message.Control? ==>
               !e.message.envelope.event.OutputAudioCancel?
    requires t.log <= after.log
    ensures GivesUp(s, after, timeUs, hard)
  {
    var g := s.active.value.id;
    SentSince(s, t, after, Some(g), timeUs, LatencyMark(CancelRequested));
    if s.providerOpen {
      WrittenSince(s, t, after, ToProvider(CancelGeneration(g)));
    }
    if hard {
      SentSince(s, t, after, Some(g), timeUs, OutputAudioCancel(timeUs));
    } else {
      forall id: Id, n: nat
        ensures !Written(s, after, ToClient(Control(Envelope(id, n, timeUs, Some(g), OutputAudioCancel(timeUs)))))
      {
        var e := ToClient(Control(Envelope(id, n, timeUs, Some(g), OutputAudioCancel(timeUs))));
        WrittenSplits(s, t, after, e);
        assert !Written(s, t, e);
        assert !Written(t, after, e);
      }
    }
  }

  // ---------- the end of the session ----------

  // The end of the session: the provider, if it still reads, is told to cancel what is active and then
  // to close, and nothing is active.
  lemma ShutdownCloses(s: SessionState, o: Oracle)
    requires s.open
    ensures var after := Step(s, Input(Shutdown, o));
            && !after.open && after.active.None? && after.tasks == s.tasks
            && after.log == s.log +
               if !s.providerOpen then []
               else if s.active.Some? then [ToProvider(CancelGeneration(s.active.value.id)), ToProvider(Close)]
               else [ToProvider(Close)]
  {
  }

  // Nothing happens to a session that has ended.
  lemma {:induction false} EndedStays(config: Config, inputs: seq<Input>, more: seq<Input>)
    requires !Run(config, inputs).open
    ensures Run(config, inputs + more) == Run(config, inputs)
    decreases |more|
  {
    if more == [] {
      assert inputs + more == inputs;
    } else {
      EndedStays(config, inputs, more[..|more| - 1]);
      assert (inputs + more)[..|inputs + more| - 1] == inputs + more[..|more| - 1];
    }
  }

  // ---------- audio from the client ----------

  // A frame reaches the provider unless its queue is full; a drop that is due a report, a provider that
  // has gone and an engine that failed are each reported; the two observations are published together.
  lemma FrameReachesProvider(s: SessionState, input: Input)
    requires s.open && input.stimulus.AudioArrived?
    ensures var after, a := Step(s, input), input.stimulus;
            if !s.providerOpen then after.log == s.log + [after.log[|s.log|]] &&
                                    SentEvent(s, after, None, a.timeUs, ErrorEvent("provider_closed"))
            else
              && (Written(s, after, ToProvider(AudioFrame(a.timeUs))) <==> !a.queueFull)
              && (a.queueFull && a.reportDrop ==>
                    SentEvent(s, after, None, a.timeUs, ErrorEvent("provider_backpressure")))
              && (a.publish ==> SentEvent(s, after, None, a.timeUs, EndpointingPrediction) &&
                                SentEvent(s, after, None, a.timeUs, Observation))
              && (a.answer.EngineFailed? ==>
                    SentEvent(s, after, None, a.timeUs, ErrorEvent("runtime_error")) &&
                    after.active == s.active && after.lease == s.lease)
  {
    var a := input.stimulus;
    var t := a.timeUs;
    var after := Step(s, input);
    if !s.providerOpen {
      WrittenLast(s, after, after.log[|s.log|]);
    } else {
      var offered := FrameOffered(s, t, a.queueFull, a.reportDrop);
      var observed := Observed(offered, t, a.publish);
      OfferedIs(s, t, a.queueFull, a.reportDrop);
      ObservedIs(offered, t, a.publish);
      AnsweredIs(observed, t, a.answer);
      assert after == Answered(observed, t, a.answer);
      hide FrameOffered, Observed, Answered, Step;
      FrameSince(s, offered, observed, after, a);
    }
  }

  function Answered(s: SessionState, timeUs: nat, answer: EngineAnswer): SessionState {
    match answer
    case Decisions(actions) => Decided(s, actions, timeUs)
    case EngineFailed => Sent(s, timeUs, ErrorEvent("runtime_error"), None)
  }

  lemma OfferedIs(s: SessionState, t: nat, full: bool, report: bool)
    requires s.providerOpen
    ensures var offered := FrameOffered(s, t, full, report);
            && s.log <= offered.log && offered.active == s.active && offered.lease == s.lease
            && (Written(s, offered, ToProvider(AudioFrame(t))) <==> !full)
            && (full && report ==> SentEvent(s, offered, None, t, ErrorEvent("provider_backpressure")))
  {
    var offered := FrameOffered(s, t, full, report);
    if full && report {
      WrittenLast(s, offered, offered.log[|s.log|]);
    }
  }

  lemma ObservedIs(s: SessionState, t: nat, publish: bool)
    ensures var observed := Observed(s, t, publish);
            && s.log <= observed.log && observed.active == s.active && observed.lease == s.lease
            && !Written(s, observed, ToProvider(AudioFrame(t)))
            && (publish ==> SentEvent(s, observed, None, t, EndpointingPrediction) &&
                            SentEvent(s, observed, None, t, Observation))
  {
    var observed := Observed(s, t, publish);
    if publish {
      var predicted := Sent(s, t, EndpointingPrediction, None);
      WrittenLast(s, predicted, predicted.log[|s.log|]);
      WrittenLater(s, predicted, observed, predicted.log[|s.log|]);
      WrittenLast(predicted, observed, observed.log[|predicted.log|]);
      WrittenSince(s, predicted, observed, observed.log[|predicted.log|]);
    }
  }

  lemma AnsweredIs(s: SessionState, t: nat, answer: EngineAnswer)
    ensures var after := Answered(s, t, answer);
            && s.log <= after.log && !Written(s, after, ToProvider(AudioFrame(t)))
            && (answer.EngineFailed? ==>
                  SentEvent(s, after, None, t, ErrorEvent("runtime_error")) &&
                  after.active == s.active && after.lease == s.lease)
  {
    var after := Answered(s, t, answer);
    match answer {
      case Decisions(actions) =>
        DecidedAdds(s, actions, t);
        hide Decided;
        assert forall i :: |s.log| <= i < |after.log| ==> KindOf(after.log[i]) in DecisionKinds();
        assert KindOf(ToProvider(AudioFrame(t))) !in DecisionKinds();
      case EngineFailed =>
        WrittenLast(s, after, after.log[|s.log|]);
    }
  }

  lemma FrameSince(s: SessionState, offered: SessionState, observed: SessionState, after: SessionState, a: Stimulus)
    requires a.AudioArrived? && s.log <= offered.log <= observed.log <= after.log
    requires Written(s, offered, ToProvider(AudioFrame(a.timeUs))) <==> !a.queueFull
    requires !Written(offered, observed, ToProvider(AudioFrame(a.timeUs)))
    requires !Written(observed, after, ToProvider(AudioFrame(a.timeUs)))
    requires a.queueFull && a.reportDrop ==> SentEvent(s, offered, None, a.timeUs, ErrorEvent("provider_backpressure"))
    requires a.publish ==> SentEvent(offered, observed, None, a.timeUs, EndpointingPrediction) &&
                           SentEvent(offered, observed, None, a.timeUs, Observation)
    requires a.answer.EngineFailed? ==> SentEvent(observed, after, None, a.timeUs, ErrorEvent("runtime_error"))
    ensures Written(s, after, ToProvider(AudioFrame(a.timeUs))) <==> !a.queueFull
    ensures a.queueFull && a.reportDrop ==> SentEvent(s, after, None, a.timeUs, ErrorEvent("provider_backpressure"))
    ensures a.publish ==> SentEvent(s, after, None, a.timeUs, EndpointingPrediction) &&
                          SentEvent(s, after, None, a.timeUs, Observation)
    ensures a.answer.EngineFailed? ==> SentEvent(s, after, None, a.timeUs, ErrorEvent("runtime_error"))
  {
    WrittenSplits(s, offered, after, ToProvider(AudioFrame(a.timeUs)));
    WrittenSplits(offered, observed, after, ToProvider(AudioFrame(a.timeUs)));
    if a.queueFull && a.reportDrop {
      SentLater(s, offered, after, None, a.timeUs, ErrorEvent("provider_backpressure"));
    }
    if a.publish {
      SentLater(offered, observed, after, None, a.timeUs, EndpointingPrediction);
      SentLater(offered, observed, after, None, a.timeUs, Observation);
      SentSince(s, offered, after, None, a.timeUs, EndpointingPrediction);
      SentSince(s, offered, after, None, a.timeUs, Observation);
    }
    if a.answer.EngineFailed? {
      SentSince(s, observed, after, None, a.timeUs, ErrorEvent("runtime_error"));
    }
  }

  lemma SentLater(s: SessionState, t: SessionState, after: SessionState, g: Option<Id>, timeUs: nat, event: Event)
    requires SentEvent(s, t, g, timeUs, event) && t.log <= after.log
    ensures SentEvent(s, after, g, timeUs, event)
  {
    var id: Id, n: nat :| Written(s, t, ToClient(Control(Envelope(id, n, timeUs, g, event))));
    WrittenLater(s, t, after, ToClient(Control(Envelope(id, n, timeUs, g, event))));
  }

  // ---------- the client's tasks ----------

  // A request with a blank intent or a known id is refused with an error; any other makes its task
  // active, with no evidence yet and the deadline asked for, or else as long as the configuration says
  // from now on, and is acknowledged with that deadline.
  lemma RequestIsAnswered(s: SessionState, input: Input)
    requires s.open && input.stimulus.TaskAsked?
    ensures var t, r, after := input.stimulus.timeUs, input.stimulus.request, Step(s, input);
            if (forall i :: 0 <= i < |r.intent| ==> IsSpace(r.intent[i])) || r.taskId in s.tasks.active ||
               r.taskId in s.tasks.completed
            then
              && |after.log| == |s.log| + 1 && SentEvent(s, after, None, t, ErrorEvent("task_rejected"))
              && after.tasks == s.tasks && after.active == s.active
            else
              && r.taskId in after.tasks.active && after.tasks.active - {r.taskId} == s.tasks.active
              && var d := after.tasks.active[r.taskId].deadlineMs;
                 && after.tasks.active[r.taskId] == TaskRecord(r.taskId, r.intent, d, r.generation, map[])
                 && (r.deadlineMs.Some? ==> d == r.deadlineMs.value)
                 && (r.deadlineMs.None? ==>
                       var span := if s.config.defaultDeadlineMs == 0 then U32_MAX else s.config.defaultDeadlineMs;
                       d == t / 1000 + span || (d == U64_MAX && t / 1000 + span > U64_MAX))
                 && |after.log| == |s.log| + 1 && IsAckFor(after.log[|s.log|], r.taskId)
                 && after.log[|s.log|].message.envelope.event.ack ==
                      TaskAcknowledged(r.taskId, d, Some(s.config.providerId), [])
                 && after.log[|s.log|].message.envelope.mediaTimeUs == t
  {
    var r, after := input.stimulus.request, Step(s, input);
    if Rejects(s.tasks, r) {
      WrittenLast(s, after, after.log[|s.log|]);
    } else {
      assert after.tasks.active == s.tasks.active[r.taskId := after.tasks.active[r.taskId]];
    }
  }

  // A resumption of this session is answered with copies of exactly the ledger envelopes above the
  // cursor that are still kept, ascending, and then a pong; a resumption of another with an error.
  lemma ResumeIsAnswered(config: Config, inputs: seq<Input>, input: Input)
    requires var s := Run(config, inputs); s.open && s.sequence < U64_MAX && input.stimulus.ResumeAsked?
    ensures var s, r := Run(config, inputs), input.stimulus;
            var after := Step(s, input);
            && after.active == s.active && after.lease == s.lease
            && if !r.sameSession
               then |after.log| == |s.log| + 1 && SentEvent(s, after, None, r.timeUs, ErrorEvent("session_mismatch"))
               else exists replay: seq<Envelope>, pong: Envelope ::
                 && ExactReplay(s, r.lastSeen, input.oracle.clockMs, replay)
                 && pong.event == Pong && pong.generation.None? && pong.mediaTimeUs == r.timeUs
                 && after.log == s.log + Copies(replay) + [ToClient(Control(pong))]
  {
    var s, r := Run(config, inputs), input.stimulus;
    var after := Step(s, input);
    if r.sameSession {
      ReplayIsExact(config, inputs, r.lastSeen, input.oracle.clockMs);
      ResumeWrites(s, input);
    } else {
      WrittenLast(s, after, after.log[|s.log|]);
    }
  }

  function Copies(envelopes: seq<Envelope>): seq<Entry> {
    seq(|envelopes|, i requires 0 <= i < |envelopes| => ToClient(RawText(envelopes[i], true)))
  }

  lemma ResumeWrites(s: SessionState, input: Input)
    requires s.open && input.stimulus.ResumeAsked? && input.stimulus.sameSession
    ensures var r, after := input.stimulus, Step(s, input);
            && after.active == s.active && after.lease == s.lease
            && exists pong: Envelope ::
                 && pong.event == Pong && pong.generation.None? && pong.mediaTimeUs == r.timeUs
                 && after.log == s.log + Copies(Replayed(s.tasks, r.lastSeen, input.oracle.clockMs)) +
                                 [ToClient(Control(pong))]
  {
    var r, after := input.stimulus, Step(s, input);
    var replay := Replayed(s.tasks, r.lastSeen, input.oracle.clockMs);
    var purged := s.(tasks := Purged(s.tasks, r.lastSeen, input.oracle.clockMs));
    CopiesSent(purged, replay);
    assert after == Sent(ReplaySent(purged, replay), r.timeUs, Pong, None);
    hide Replayed, Purged, ReplaySent;
    assert after.log[|after.log| - 1].message.envelope.event == Pong;
  }

  lemma {:induction false} CopiesSent(s: SessionState, envelopes: seq<Envelope>)
    ensures ReplaySent(s, envelopes).log == s.log + Copies(envelopes)
    ensures ReplaySent(s, envelopes).active == s.active && ReplaySent(s, envelopes).lease == s.lease
  {
    if envelopes != [] {
      var front, last := envelopes[..|envelopes| - 1], envelopes[|envelopes| - 1];
      CopiesSent(s, front);
      assert Copies(envelopes) == Copies(front) + [ToClient(RawText(last, true))];
    }
  }

  // ---------- decisions are announced ----------

  predicate IsDecision(e: Entry) {
    e.ToClient? && e.message.Control? && e.message.envelope.event.InteractionDecision?
  }

  function DecisionsIn(entries: seq<Entry>): seq<InteractionAction> {
    if entries == [] then []
    else
      var e := entries[|entries| - 1];
      DecisionsIn(entries[..|entries| - 1]) + if IsDecision(e) then [e.message.envelope.event.action] else []
  }

  lemma {:induction false} DecisionsConcat(a: seq<Entry>, b: seq<Entry>)
    ensures DecisionsIn(a + b) == DecisionsIn(a) + DecisionsIn(b)
  {
    if b == [] {
      assert a + b == a;
    } else {
      DecisionsConcat(a, b[..|b| - 1]);
      assert (a + b)[..|a + b| - 1] == a + b[..|b| - 1];
      hide IsDecision;
    }
  }

  lemma {:induction false} NoDecisions(entries: seq<Entry>)
    requires forall e :: e in entries ==> !IsDecision(e)
    ensures DecisionsIn(entries) == []
  {
    if entries != [] {
      NoDecisions(entries[..|entries| - 1]);
      assert entries[|entries| - 1] in entries;
    }
  }

  // What was decided since `s`.
  function DecidedSince(s: SessionState, after: SessionState): seq<InteractionAction>
    requires s.log <= after.log
  {
    DecisionsIn(after.log[|s.log|..])
  }

  lemma DecidedOver(s: SessionState, t: SessionState, after: SessionState)
    requires s.log <= t.log <= after.log
    ensures DecidedSince(s, after) == DecidedSince(s, t) + DecidedSince(t, after)
  {
    DecisionsConcat(t.log[|s.log|..], after.log[|t.log|..]);
    assert after.log[|s.log|..] == t.log[|s.log|..] + after.log[|t.log|..];
  }

  lemma ActedDecidesNothing(s: SessionState, action: InteractionAction, timeUs: nat)
    ensures s.log <= Acted(s, action, timeUs).log && DecidedSince(s, Acted(s, action, timeUs)) == []
  {
    var after := Acted(s, action, timeUs);
    StartedDecidesNothing(s, timeUs);
    hide Started, IsDecision;
    if s.active.Some? && (action == HardYield || action == Replan) {
      InterruptedIs(s, action, timeUs);
      CancelEntriesDecideNothing(s, timeUs, action == HardYield);
      hide Interrupted, CancelEntries;
      assert after.log[|s.log|..] == CancelEntries(s, timeUs, action == HardYield);
    } else if action != StartResponse {
      assert after.log[|s.log|..] == [];
      NoDecisions([]);
    }
  }

  lemma CancelEntriesDecideNothing(s: SessionState, timeUs: nat, hard: bool)
    requires s.active.Some?
    ensures DecisionsIn(CancelEntries(s, timeUs, hard)) == []
  {
    NoDecisions(CancelEntries(s, timeUs, hard));
  }

  lemma StartedDecidesNothing(s: SessionState, timeUs: nat)
    ensures s.log <= Started(s, timeUs).log && DecidedSince(s, Started(s, timeUs)) == []
  {
    hide Begun;
    var after := Started(s, timeUs);
    if s.active.None? {
      assert Begun(s, timeUs).log == s.log by {
        BegunSaysNothing(s, timeUs);
      }
      NoDecisions(after.log[|s.log|..]);
    } else {
      assert after.log[|s.log|..] == [];
      NoDecisions([]);
    }
  }

  lemma BegunSaysNothing(s: SessionState, timeUs: nat)
    ensures Begun(s, timeUs).log == s.log
  {
  }

  lemma {:induction false} DecidedAnnounces(s: SessionState, actions: seq<InteractionAction>, timeUs: nat)
    ensures s.log <= Decided(s, actions, timeUs).log
    ensures DecidedSince(s, Decided(s, actions, timeUs)) == actions
  {
    hide Acted, IsDecision, DecisionsIn;
    if actions == [] {
      NoDecisions([]);
      assert s.log[|s.log|..] == [];
    } else {
      var front, last := actions[..|actions| - 1], actions[|actions| - 1];
      var t := Decided(s, front, timeUs);
      var tag := if last == HardYield && t.active.Some? then Some(t.active.value.id) else None;
      var said := Sent(t, timeUs, InteractionDecision(last), tag);
      DecidedAnnounces(s, front, timeUs);
      SentDecides(t, timeUs, last, tag);
      ActedDecidesNothing(said, last, timeUs);
      hide Sent, DecidedSince;
      DecidedOver(s, t, said);
      DecidedOver(s, said, Acted(said, last, timeUs));
    }
  }

  lemma SentDecides(s: SessionState, timeUs: nat, action: InteractionAction, tag: Option<Id>)
    ensures var said := Sent(s, timeUs, InteractionDecision(action), tag);
            s.log <= said.log && DecidedSince(s, said) == [action]
  {
    var said := Sent(s, timeUs, InteractionDecision(action), tag);
    var e := said.log[|s.log|];
    assert said.log[|s.log|..] == [e] && [e][..0] == [];
    NoDecisions([]);
  }

  // The engine's decisions are all announced to the browser, in order, and nothing else is announced as one.
  lemma DecisionsAreAnnounced(s: SessionState, input: Input)
    requires s.open && s.providerOpen && input.stimulus.AudioArrived? && input.stimulus.answer.Decisions?
    ensures s.log <= Step(s, input).log && DecidedSince(s, Step(s, input)) == input.stimulus.answer.actions
  {
    var a := input.stimulus;
    var observed := Observed(FrameOffered(s, a.timeUs, a.queueFull, a.reportDrop), a.timeUs, a.publish);
    ObservedDecidesNothing(s, a);
    DecidedAnnounces(observed, a.answer.actions, a.timeUs);
    assert Step(s, input) == Decided(observed, a.answer.actions, a.timeUs);
    hide Step, FrameOffered, Observed, Decided, DecidedSince;
    DecidedOver(s, observed, Decided(observed, a.answer.actions, a.timeUs));
  }

  lemma ObservedDecidesNothing(s: SessionState, a: Stimulus)
    requires a.AudioArrived? && s.providerOpen
    ensures var observed := Observed(FrameOffered(s, a.timeUs, a.queueFull, a.reportDrop), a.timeUs, a.publish);
            s.log <= observed.log && DecidedSince(s, observed) == []
  {
    var observed := Observed(FrameOffered(s, a.timeUs, a.queueFull, a.reportDrop), a.timeUs, a.publish);
    NoDecisions(observed.log[|s.log|..]);
  }

  // ---------- numbers do not depend on what is published ----------

  predicate SameButLog(s: SessionState, t: SessionState) {
    t == s.(log := t.log)
  }

  lemma ActedSameButLog(s: SessionState, t: SessionState, action: InteractionAction, timeUs: nat)
    requires SameButLog(s, t)
    ensures SameButLog(Acted(s, action, timeUs), Acted(t, action, timeUs))
  {
    hide LeaseName, PendingBound;
  }

  lemma {:induction false} DecidedSameButLog(s: SessionState, t: SessionState, actions: seq<InteractionAction>,
                                             timeUs: nat)
    requires SameButLog(s, t)
    ensures SameButLog(Decided(s, actions, timeUs), Decided(t, actions, timeUs))
  {
    if actions != [] {
      var front, last := actions[..|actions| - 1], actions[|actions| - 1];
      DecidedSameButLog(s, t, front, timeUs);
      var u, v := Decided(s, front, timeUs), Decided(t, front, timeUs);
      var tag := if last == HardYield && u.active.Some? then Some(u.active.value.id) else None;
      ActedSameButLog(Sent(u, timeUs, InteractionDecision(last), tag), Sent(v, timeUs, InteractionDecision(last), tag),
                      last, timeUs);
      hide Acted;
    }
  }

  // Whether the observations on a frame are published changes what the browser is sent of them and nothing
  // else: no number, no id, no decision.
  lemma PublishingCostsNoNumbers(s: SessionState, a: Stimulus, o: Oracle)
    requires a.AudioArrived?
    ensures var published, silent := Step(s, Input(a.(publish := true), o)), Step(s, Input(a.(publish := false), o));
            published == silent.(log := published.log)
  {
    if s.open && s.providerOpen {
      var offered := FrameOffered(s, a.timeUs, a.queueFull, a.reportDrop);
      var published, silent := Observed(offered, a.timeUs, true), Observed(offered, a.timeUs, false);
      assert SameButLog(silent, published) by {
        hide FrameOffered;
      }
      hide FrameOffered, Observed, Decided;
      if a.answer.Decisions? {
        DecidedSameButLog(silent, published, a.answer.actions, a.timeUs);
      }
    }
  }
}
