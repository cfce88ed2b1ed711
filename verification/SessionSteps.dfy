// Every step of the session keeps its invariant and may follow the state it starts from.
module SessionSteps {
  import opened Protocol
  import opened AnswerLease
  import opened TaskLedger
  import opened Session
  import opened WireInvariant
  import opened LedgerInvariant
  import opened BufferInvariant
  import opened SessionInvariant

  // ---------- starting and cancelling ----------

  lemma BegunOk(s: SessionState, timeUs: nat, g: Id)
    requires Inv(s, map[]) && s.active.None?
    ensures Inv(Begun(s, timeUs), map[]) && Follows(s, Begun(s, timeUs), g)
  {
    var begun := Begun(s, timeUs);
    hide LedgerOk, TasksKept, Follows, ProviderOk, WireOk, BufferOk;
    LedgerBinds(s.tasks, s.log, s.minted);
    LedgerSeparatesAll(s.tasks, s.log);
    BindKeepsTasks(s.tasks, s.minted);
    hide PendingBound;
    BufferKept(s.tasks, begun.tasks, s.log, s.sequence, s.minted);
    assert s.log + [] == s.log;
    BufferGrows(begun.tasks, s.log, s.sequence, s.minted, [], s.sequence, s.minted + 1);
    ProviderActivates(s.log, begun.active, s.providerOpen, s.lease.version, s.minted);
    WireLater(s.log, s.sequence, s.minted);
    FollowsAppend(s, begun, [], g);
  }

  lemma WireLater(log: seq<Entry>, sequence: nat, minted: nat)
    requires WireOk(log, sequence, minted)
    ensures WireOk(log, sequence, minted + 1)
  {
  }

  lemma LedgerSeparatesAll(t: TaskState, log: seq<Entry>)
    requires LedgerOk(t, log, map[])
    ensures t.bindings.Keys == t.completed.Keys
  {
  }

  lemma BindKeepsTasks(t: TaskState, g: Id)
    requires t.bindings.Keys == t.completed.Keys
    ensures TasksKept(t, PendingBound(t, g)) && SameBuffer(t, PendingBound(t, g))
  {
    var after := PendingBound(t, g);
    assert after == t.(active := after.active);
    assert after.active.Keys == t.active.Keys;
    assert forall x :: x in t.active && t.active[x].generation.Some? ==>
           after.active[x].generation == t.active[x].generation;
    hide PendingBound;
    forall x ensures TaskKept(t, after, x) {
      assert EvidenceFor(after, x) == EvidenceFor(t, x);
    }
  }

  lemma ProviderActivates(log: seq<Entry>, active: Option<ActiveGeneration>, open: bool, version: nat, minted: nat)
    requires ProviderOk(log, None, open, version, minted)
    ensures ProviderOk(log, active, open, version, minted + 1)
  {
  }

  // The commit of a generation that has just become active, when nothing else was.
  lemma CommitOk(s: SessionState, timeUs: nat, g: Id)
    requires Inv(s, map[]) && s.active.Some? && s.providerOpen
    requires ProviderOk(s.log, None, true, s.lease.version, s.active.value.id)
    ensures var after := Told(s, CommitResponse(s.active.value.id, s.lease.version, timeUs));
            Inv(after, map[]) && Follows(s, after, g)
  {
    var e := ToProvider(CommitResponse(s.active.value.id, s.lease.version, timeUs));
    hide LedgerOk, WireOk, ProviderOk, BufferOk, TasksKept, Follows;
    WireAppend(s.log, s.sequence, s.minted, e);
    ProviderCommit(s.log, s.active.value, s.lease.version, s.minted, timeUs);
    LedgerAppend(s.tasks, s.log, map[], e);
    BufferGrows(s.tasks, s.log, s.sequence, s.minted, [e], s.sequence, s.minted);
    TasksKeptRefl(s.tasks);
    FollowsAppend(s, s.(log := s.log + [e]), [e], g);
  }

  lemma StartedOk(s: SessionState, timeUs: nat, g: Id)
    requires Inv(s, map[])
    ensures Inv(Started(s, timeUs), map[]) && Follows(s, Started(s, timeUs), g)
  {
    hide LedgerOk, Follows, WireOk, BufferOk, ProviderOk;
    if s.active.Some? {
      FollowsRefl(s, g);
    } else {
      var begun := Begun(s, timeUs);
      var mark := LatencyMark(ResponseCommitted);
      var marked := Sent(begun, timeUs, mark, Some(s.minted));
      BegunOk(s, timeUs, g);
      SentOk(begun, map[], timeUs, mark, Some(s.minted), g);
      FollowsTrans(s, begun, marked, g);
      if s.providerOpen {
        ProviderAppend(s.log, None, None, true, s.lease.version, s.minted,
                       ToClient(Control(Draw(begun, timeUs, mark, Some(s.minted)))));
        CommitOk(marked, timeUs, g);
      } else {
        SentOk(marked, map[], timeUs, ErrorEvent("provider_closed"), None, g);
      }
      FollowsTrans(s, marked, Started(s, timeUs), g);
    }
  }

  // One more control message after `t`; the tag only matters for generations retired at `s`.
  lemma FollowsSent(s: SessionState, t: SessionState, timeUs: nat, event: Event, tag: Option<Id>, g: Id)
    requires Follows(s, t, g) && Inv(t, map[])
    requires tag.Some? ==> tag.value < t.minted
    requires Retired(s, g) ==> tag != Some(g)
    ensures Follows(s, Sent(t, timeUs, event, tag), g)
  {
    var after := Sent(t, timeUs, event, tag);
    if Retired(s, g) {
      SentOk(t, map[], timeUs, event, tag, g);
      FollowsTrans(s, t, after, g);
    } else {
      var other := t.minted;
      assert Follows(s, t, other);
      SentOk(t, map[], timeUs, event, tag, other);
      FollowsTrans(s, t, after, other);
    }
  }

  // Cancelling: the generation is closed by its cancellation, or the provider is gone.
  lemma InterruptedOk(s: SessionState, action: InteractionAction, timeUs: nat, g: Id)
    requires Inv(s, map[])
    ensures Inv(Interrupted(s, action, timeUs), map[]) && Follows(s, Interrupted(s, action, timeUs), g)
  {
    hide LedgerOk, Follows, WireOk, BufferOk, ProviderOk;
    FollowsRefl(s, g);
    if s.active.Some? {
      var a := s.active.value;
      var mark := LatencyMark(CancelRequested);
      var marked := Sent(s, timeUs, mark, Some(a.id));
      SentOk(s, map[], timeUs, mark, Some(a.id), g);
      WithdrawnOk(marked, g);
      var told := Told(marked.(active := None, lease := Withdrawn(marked.lease, a.id)), CancelGeneration(a.id));
      assert Told(Sent(s.(active := None), timeUs, mark, Some(a.id)).(lease := Withdrawn(s.lease, a.id)),
                  CancelGeneration(a.id)) == told;
      FollowsTrans(s, marked, told, g);
      if action == HardYield {
        SentInv(told, map[], timeUs, OutputAudioCancel(timeUs), Some(a.id));
        FollowsSent(s, told, timeUs, OutputAudioCancel(timeUs), Some(a.id), g);
      }
    }
  }

  // The active generation is revoked and its cancellation told to the provider.
  lemma WithdrawnOk(s: SessionState, g: Id)
    requires Inv(s, map[]) && s.active.Some?
    ensures var id := s.active.value.id;
            var told := Told(s.(active := None, lease := Withdrawn(s.lease, id)), CancelGeneration(id));
            Inv(told, map[]) && Follows(s, told, g)
  {
    var id := s.active.value.id;
    var told := Told(s.(active := None, lease := Withdrawn(s.lease, id)), CancelGeneration(id));
    var e := ToProvider(CancelGeneration(id));
    hide LedgerOk, WireOk, ProviderOk, BufferOk, TasksKept, Follows;
    TasksKeptRefl(s.tasks);
    if s.providerOpen {
      WireAppend(s.log, s.sequence, s.minted, e);
      ProviderAppend(s.log, s.active, None, true, s.lease.version, s.minted, e);
      LedgerAppend(s.tasks, s.log, map[], e);
      BufferGrows(s.tasks, s.log, s.sequence, s.minted, [e], s.sequence, s.minted);
      FollowsAppend(s, told, [e], g);
    } else {
      ProviderGoneQuiet(s.log, s.active, s.lease.version, s.minted);
      assert s.log + [] == s.log;
      FollowsAppend(s, told, [], g);
    }
  }

  // Once the provider is gone no commit needs closing.
  lemma ProviderGoneQuiet(log: seq<Entry>, active: Option<ActiveGeneration>, version: nat, minted: nat)
    requires exists open :: ProviderOk(log, active, open, version, minted)
    ensures ProviderOk(log, None, false, version, minted) && ProviderOk(log, active, false, version, minted)
  {
  }

  lemma ActedOk(s: SessionState, action: InteractionAction, timeUs: nat, g: Id)
    requires Inv(s, map[])
    ensures Inv(Acted(s, action, timeUs), map[]) && Follows(s, Acted(s, action, timeUs), g)
  {
    hide LedgerOk, WireOk, BufferOk, TasksKept, Started, Interrupted;
    if action == StartResponse {
      StartedOk(s, timeUs, g);
    } else if action == HardYield || action == Replan {
      InterruptedOk(s, action, timeUs, g);
    } else {
      TasksKeptRefl(s.tasks);
      assert s.log + [] == s.log;
      FollowsAppend(s, Acted(s, action, timeUs), [], g);
    }
  }

  lemma {:induction false} DecidedOk(s: SessionState, actions: seq<InteractionAction>, timeUs: nat, g: Id)
    requires Inv(s, map[])
    ensures Inv(Decided(s, actions, timeUs), map[]) && Follows(s, Decided(s, actions, timeUs), g)
  {
    hide Core, LedgerOk, Follows, Acted;
    if actions == [] {
      FollowsRefl(s, g);
    } else {
      var t := Decided(s, actions[..|actions| - 1], timeUs);
      var action := actions[|actions| - 1];
      var tag := if action == HardYield && t.active.Some? then Some(t.active.value.id) else None;
      var sent := Sent(t, timeUs, InteractionDecision(action), tag);
      DecidedOk(s, actions[..|actions| - 1], timeUs, g);
      ActiveDrawn(t);
      SentOk(t, map[], timeUs, InteractionDecision(action), tag, g);
      ActedOk(sent, action, timeUs, g);
      FollowsTrans(s, t, sent, g);
      FollowsTrans(s, sent, Acted(sent, action, timeUs), g);
    }
  }

  lemma ActiveDrawn(s: SessionState)
    requires Inv(s, map[])
    ensures s.active.Some? ==> s.active.value.id < s.minted
  {
  }

  // ---------- provider emissions ----------

  lemma {:induction false} MarksSentOk(s: SessionState, timeUs: nat, phases: seq<LatencyPhase>, g: Id)
    requires Inv(s, map[]) && s.active.Some?
    ensures var after := MarksSent(s, timeUs, s.active.value.id, phases);
            Inv(after, map[]) && Follows(s, after, g) && after.active == s.active && after.tasks == s.tasks
  {
    hide Core, LedgerOk, Follows;
    if phases == [] {
      FollowsRefl(s, g);
    } else {
      var t := MarksSent(s, timeUs, s.active.value.id, phases[..|phases| - 1]);
      MarksSentOk(s, timeUs, phases[..|phases| - 1], g);
      ActiveDrawn(t);
      var mark := LatencyMark(phases[|phases| - 1]);
      SentOk(t, map[], timeUs, mark, Some(s.active.value.id), g);
      FollowsTrans(s, t, Sent(t, timeUs, mark, Some(s.active.value.id)), g);
    }
  }

  // Resolving a batch of active tasks and sending their outcomes.
  lemma BatchOk(s: SessionState, ids: seq<Id>, result: TaskResult, outcomes: seq<TaskOutcome>, timeUs: nat,
                clockMs: nat, g: Id)
    requires Inv(s, map[]) && NoDuplicates(ids) && |outcomes| == |ids|
    requires forall i :: 0 <= i < |ids| ==> Reports(s.tasks, s.log, ids[i], result, outcomes[i])
    ensures var after := OutcomesSent(s.(tasks := Resolved(s.tasks, ids, result)), timeUs, outcomes, clockMs);
            Inv(after, map[]) && Follows(s, after, g)
  {
    hide Core, LedgerOk, Follows, TasksKept, SameBuffer;
    var mid := s.(tasks := Resolved(s.tasks, ids, result));
    assert TaskIds(outcomes) == ids by {
      assert forall i :: 0 <= i < |ids| ==> Reports(s.tasks, s.log, ids[i], result, outcomes[i]);
    }
    ResolvedBatchOk(s.tasks, s.log, ids, result, outcomes);
    TasksChange(s, mid.tasks, g);
    OwedMapHolds(outcomes);
    OutcomesSentOk(mid, OwedMap(outcomes), timeUs, outcomes, clockMs, g);
    assert OwedMap(outcomes) - Settled(outcomes) == map[];
    FollowsTrans(s, mid, OutcomesSent(mid, timeUs, outcomes, clockMs), g);
  }

  lemma {:induction false} OutcomesKeepActive(s: SessionState, timeUs: nat, outcomes: seq<TaskOutcome>, clockMs: nat)
    ensures OutcomesSent(s, timeUs, outcomes, clockMs).active == s.active
  {
    if outcomes != [] {
      OutcomesKeepActive(s, timeUs, outcomes[..|outcomes| - 1], clockMs);
    }
  }

  lemma DeadlinesOk(s: SessionState, timeUs: nat, order: seq<Id>, clockMs: nat, g: Id)
    requires Inv(s, map[])
    ensures var after := DeadlinesEnforced(s, timeUs, order, clockMs);
            Inv(after, map[]) && Follows(s, after, g) && after.active == s.active
  {
    var ids := Arrange(order, Expired(s.tasks, timeUs / 1000));
    var outcomes := TimedOutOutcomes(s.tasks, ids);
    forall i | 0 <= i < |ids|
      ensures Reports(s.tasks, s.log, ids[i], Failure, outcomes[i])
    {
      assert ids[i] in ids;
    }
    hide Inv, Follows, Arrange;
    BatchOk(s, ids, Failure, outcomes, timeUs, clockMs, g);
    OutcomesKeepActive(s.(tasks := Resolved(s.tasks, ids, Failure)), timeUs, outcomes, clockMs);
  }

  // Every commit of generation `g` in the log is closed.
  ghost predicate Concluded(log: seq<Entry>, g: Id) {
    forall i :: 0 <= i < |log| && IsCommit(log[i]) && log[i].input.generation == g ==> ClosedWithin(log, i, |log|, g)
  }

  lemma FinishedOk(s: SessionState, source: Id, proof: Id, timeUs: nat, order: seq<Id>, clockMs: nat, g: Id)
    requires Inv(s, map[]) && s.active.Some? && s.active.value.id == source
    requires Concluded(s.log, source) && CompletionOnWire(s.log, proof, source)
    requires forall id :: id in BoundTo(s.tasks, source) ==> proof in EvidenceFor(s.tasks, id)
    ensures var after := Finished(s, source, timeUs, order, clockMs);
            Inv(after, map[]) && Follows(s, after, g)
  {
    var ids := Arrange(order, BoundTo(s.tasks, source));
    var outcomes := CompletedOutcomes(s.tasks, ids);
    var ended := s.(active := None);
    forall i | 0 <= i < |ids|
      ensures Reports(s.tasks, s.log, ids[i], Success, outcomes[i])
    {
      assert ids[i] in ids;
      assert proof in EvidenceFor(s.tasks, ids[i]);
    }
    hide Arrange, LedgerOk, WireOk, BufferOk, TasksKept, SuccessOk;
    TasksKeptRefl(s.tasks);
    assert s.log + [] == s.log;
    FollowsAppend(s, ended, [], g);
    hide Follows, Core;
    EndedOk(s);
    BatchOk(ended, ids, Success, outcomes, timeUs, clockMs, g);
    FollowsTrans(s, ended, Finished(s, source, timeUs, order, clockMs), g);
  }

  lemma EndedOk(s: SessionState)
    requires Inv(s, map[]) && s.active.Some? && Concluded(s.log, s.active.value.id)
    ensures Inv(s.(active := None), map[])
  {
    hide LedgerOk, WireOk, BufferOk;
  }

  // ---------- one emission ----------

  lemma SentOnWire(s: SessionState, timeUs: nat, event: Event, source: Id)
    ensures var sent := Sent(s, timeUs, event, Some(source));
            && OnWire(sent.log, s.minted, source)
            && (CompletesGeneration(event) ==>
                  CompletionOnWire(sent.log, s.minted, source) && Concluded(sent.log, source))
  {
    var sent := Sent(s, timeUs, event, Some(source));
    var e := sent.log[|s.log|];
    assert Enveloped(e) && EventIdOf(e) == s.minted && Tag(e) == Some(source);
    if CompletesGeneration(event) {
      assert IsCompletion(e, source) && e.message.envelope.eventId == s.minted;
      forall i | 0 <= i < |sent.log| && IsCommit(sent.log[i])
        ensures ClosedWithin(sent.log, i, |sent.log|, source)
      {
        assert Closes(sent.log[|s.log|], source);
      }
    }
  }

  lemma CompletionPasses(s: SessionState, event: Event, verdict: SafetyVerdict)
    ensures CompletesGeneration(event) ==> Gated(s, event, verdict) == Some(event)
  {
  }

  lemma SentKeeps(s: SessionState, timeUs: nat, event: Event, source: Id)
    ensures var sent := Sent(s, timeUs, event, Some(source));
            && sent.active == s.active && sent.tasks == s.tasks
            && Told(sent, CancelGeneration(source)).active == s.active &&
               Told(sent, CancelGeneration(source)).tasks == s.tasks
  {
  }

  lemma EventEmittedOk(s: SessionState, event: Event, timeUs: nat, verdict: SafetyVerdict, g: Id)
    requires Inv(s, map[]) && s.active.Some?
    ensures var source := s.active.value.id;
            var (after, emitted) := EventEmitted(s, event, source, timeUs, verdict);
            && Inv(after, map[]) && Follows(s, after, g) && after.active == s.active && after.tasks == s.tasks
            && (emitted.Some? ==> OnWire(after.log, emitted.value.eventId, source))
            && (CompletesGeneration(event) ==>
                  emitted.Some? && emitted.value.event == event &&
                  CompletionOnWire(after.log, emitted.value.eventId, source) && Concluded(after.log, source))
  {
    hide Core, LedgerOk, Follows, OnWire, CompletionOnWire, Concluded, Gated, Sent, Told;
    var source := s.active.value.id;
    var gated := Gated(s, event, verdict);
    CompletionPasses(s, event, verdict);
    if gated.None? {
      FollowsRefl(s, g);
    } else {
      var sent := Sent(s, timeUs, gated.value, Some(source));
      SentKeeps(s, timeUs, gated.value, source);
      ActiveDrawn(s);
      SentOk(s, map[], timeUs, gated.value, Some(source), g);
      SentOnWire(s, timeUs, gated.value, source);
      IntervenedOk(s, sent, source, s.minted, g);
    }
  }

  // Telling the provider to cut the generation short keeps what has been sent.
  lemma IntervenedOk(s: SessionState, sent: SessionState, source: Id, evidence: Id, g: Id)
    requires Inv(sent, map[]) && Follows(s, sent, g) && OnWire(sent.log, evidence, source)
    ensures var told := Told(sent, CancelGeneration(source));
            Inv(told, map[]) && Follows(s, told, g) && OnWire(told.log, evidence, source)
  {
    var told := Told(sent, CancelGeneration(source));
    hide Core, LedgerOk, OnWire;
    ToldOk(sent, map[], CancelGeneration(source), g);
    FollowsTrans(s, sent, told, g);
    OnWirePrefix(sent.log, told.log, evidence, source);
  }

  lemma {:induction false} AttachedToAllToldNobody(s: SessionState, ids: seq<Id>, kind: EvidenceKind, evidence: Id,
                                                   timeUs: nat, clockMs: nat)
    ensures var after := AttachedToAll(s, ids, kind, evidence, timeUs, clockMs);
            && |s.log| <= |after.log| && after.log[..|s.log|] == s.log
            && forall i :: |s.log| <= i < |after.log| ==> after.log[i].ToClient?
  {
    if ids == [] {
      assert s.log[..|s.log|] == s.log;
    } else {
      var t := AttachedToAll(s, ids[..|ids| - 1], kind, evidence, timeUs, clockMs);
      AttachedToAllToldNobody(s, ids[..|ids| - 1], kind, evidence, timeUs, clockMs);
      var after := AttachedTo(t, ids[|ids| - 1], kind, evidence, timeUs, clockMs);
      assert after.log == t.log || (|after.log| == |t.log| + 1 && after.log[..|t.log|] == t.log &&
                                    after.log[|t.log|].ToClient?);
      assert after.log[..|s.log|] == t.log[..|s.log|];
    }
  }

  lemma ConcludedStays(log: seq<Entry>, longer: seq<Entry>, g: Id)
    requires |log| <= |longer| && longer[..|log|] == log
    requires forall i :: |log| <= i < |longer| ==> longer[i].ToClient?
    ensures Concluded(log, g) ==> Concluded(longer, g)
  {
    assert forall i :: 0 <= i < |log| ==> longer[i] == log[i];
    if Concluded(log, g) {
      forall i | 0 <= i < |longer| && IsCommit(longer[i]) && longer[i].input.generation == g
        ensures ClosedWithin(longer, i, |longer|, g)
      {
        assert ClosedWithin(log, i, |log|, g);
        var k :| i < k < |log| && Closes(log[k], g);
        assert Closes(longer[k], g);
      }
    }
  }

  lemma EvidenceCollectedOk(s: SessionState, emitted: Option<Emitted>, timeUs: nat, order: seq<Id>, clockMs: nat, g: Id)
    requires Inv(s, map[]) && s.active.Some?
    requires emitted.Some? ==> OnWire(s.log, emitted.value.eventId, s.active.value.id)
    ensures var source := s.active.value.id;
            var after := EvidenceCollected(s, source, emitted, timeUs, order, clockMs);
            && Inv(after, map[]) && Follows(s, after, g) && after.active == s.active
            && (Concluded(s.log, source) ==> Concluded(after.log, source))
            && (emitted.Some? && CompletesGeneration(emitted.value.event) ==>
                  forall id :: id in BoundTo(after.tasks, source) ==>
                    emitted.value.eventId in EvidenceFor(after.tasks, id))
  {
    FollowsRefl(s, g);
    hide Inv, Follows;
    if emitted.Some? && Classify(emitted.value.event).Some? {
      var source := s.active.value.id;
      var ids := Arrange(order, BoundTo(s.tasks, source));
      var kind := Classify(emitted.value.event).value;
      AttachedToAllOk(s, map[], ids, source, kind, emitted.value.eventId, timeUs, clockMs, g);
      AttachedToAllToldNobody(s, ids, kind, emitted.value.eventId, timeUs, clockMs);
      var after := AttachedToAll(s, ids, kind, emitted.value.eventId, timeUs, clockMs);
      ConcludedStays(s.log, after.log, source);
      assert BoundTo(after.tasks, source) == BoundTo(s.tasks, source);
    }
  }

  lemma AcceptedOk(s: SessionState, offsetUs: nat, output: ProviderOutput, o: Oracle, g: Id)
    requires Inv(s, map[]) && s.active.Some?
    ensures var after := Accepted(s, s.active.value.id, offsetUs, output, o);
            Inv(after, map[]) && Follows(s, after, g)
  {
    var source := s.active.value.id;
    var (latency, marks) := Observe(s.active.value.latency, output);
    var timeUs := SaturatingAdd(s.active.value.baseUs, offsetUs);
    var observed := s.(active := Some(s.active.value.(latency := latency)));
    ObservedOk(s, latency, g);
    hide Core, LedgerOk, Follows, Observe;
    var marked := MarksSent(observed, timeUs, source, marks);
    MarksSentOk(observed, timeUs, marks, g);
    FollowsTrans(s, observed, marked, g);
    var checked := DeadlinesEnforced(marked, timeUs, o.expiryOrder, o.clockMs);
    DeadlinesOk(marked, timeUs, o.expiryOrder, o.clockMs, g);
    FollowsTrans(s, marked, checked, g);
    hide MarksSent, DeadlinesEnforced, EventAccepted, MediaSent;
    match output {
      case Audio =>
        MediaSentOk(checked, timeUs, o.mediaFull, g);
        FollowsTrans(s, checked, MediaSent(checked, timeUs, source, o.mediaFull), g);
      case ProviderEvent(event) =>
        EventAcceptedOk(checked, event, timeUs, o, g);
        FollowsTrans(s, checked, EventAccepted(checked, source, event, timeUs, o), g);
    }
  }

  lemma EventAcceptedOk(s: SessionState, event: Event, timeUs: nat, o: Oracle, g: Id)
    requires Inv(s, map[]) && s.active.Some?
    ensures var after := EventAccepted(s, s.active.value.id, event, timeUs, o);
            Inv(after, map[]) && Follows(s, after, g)
  {
    hide Core, LedgerOk, Follows, OnWire, CompletionOnWire, Concluded, EventEmitted, EvidenceCollected, Finished;
    var source := s.active.value.id;
    var (sent, emitted) := EventEmitted(s, event, source, timeUs, o.verdict);
    EventEmittedOk(s, event, timeUs, o.verdict, g);
    var collected := EvidenceCollected(sent, source, emitted, timeUs, o.evidenceOrder, o.clockMs);
    EvidenceCollectedOk(sent, emitted, timeUs, o.evidenceOrder, o.clockMs, g);
    FollowsTrans(s, sent, collected, g);
    if CompletesGeneration(event) {
      FollowsPrefix(sent, collected, g);
      OnWirePrefix(sent.log, collected.log, emitted.value.eventId, source);
      FinishedOk(collected, source, emitted.value.eventId, timeUs, o.completionOrder, o.clockMs, g);
      FollowsTrans(s, collected, Finished(collected, source, timeUs, o.completionOrder, o.clockMs), g);
    }
  }

  lemma ObservedOk(s: SessionState, latency: LatencyTracker, g: Id)
    requires Inv(s, map[]) && s.active.Some?
    ensures var observed := s.(active := Some(s.active.value.(latency := latency)));
            Inv(observed, map[]) && Follows(s, observed, g)
  {
    var observed := s.(active := Some(s.active.value.(latency := latency)));
    hide LedgerOk, WireOk, BufferOk, TasksKept, Follows;
    TasksKeptRefl(s.tasks);
    assert s.log + [] == s.log;
    FollowsAppend(s, observed, [], g);
  }

  lemma MediaSentOk(s: SessionState, timeUs: nat, full: bool, g: Id)
    requires Inv(s, map[]) && s.active.Some?
    ensures var after := MediaSent(s, timeUs, s.active.value.id, full);
            Inv(after, map[]) && Follows(s, after, g)
  {
    var source := s.active.value.id;
    var after := MediaSent(s, timeUs, source, full);
    var n := NextSequence(s.sequence);
    var e := ToClient(Media(n, timeUs, source));
    var more := if full then [] else [e];
    hide LedgerOk, WireOk, ProviderOk, BufferOk, TasksKept, Follows;
    TasksKeptRefl(s.tasks);
    assert s.log + [] == s.log;
    FollowsAppend(s, after, more, g);
    BufferGrows(s.tasks, s.log, s.sequence, s.minted, more, n, s.minted);
    if full {
      WireSkips(s.log, s.sequence, s.minted);
    } else {
      WireAppend(s.log, s.sequence, s.minted, e);
      ProviderAppend(s.log, s.active, s.active, s.providerOpen, s.lease.version, s.minted, e);
      LedgerAppend(s.tasks, s.log, map[], e);
    }
  }

  lemma WireSkips(log: seq<Entry>, sequence: nat, minted: nat)
    requires WireOk(log, sequence, minted) && sequence <= U64_MAX
    ensures WireOk(log, NextSequence(sequence), minted)
  {
  }

  lemma EmissionHandledOk(s: SessionState, e: Emission, o: Oracle, g: Id)
    requires Inv(s, map[])
    ensures Inv(EmissionHandled(s, e, o), map[]) && Follows(s, EmissionHandled(s, e, o), g)
  {
    hide Core, LedgerOk, Follows, Accepted;
    FollowsRefl(s, g);
    match e.generation {
      case None =>
        if e.output.ProviderEvent? {
          SentOk(s, map[], e.mediaOffsetUs, e.output.event, None, g);
        }
      case Some(source) =>
        if s.active.Some? {
          AcceptedOk(s, e.mediaOffsetUs, e.output, o, g);
        }
    }
  }

  // ---------- client events ----------

  lemma TaskRequestHandledOk(s: SessionState, timeUs: nat, request: TaskRequested, clockMs: nat, g: Id)
    requires Inv(s, map[])
    ensures Inv(TaskRequestHandled(s, timeUs, request, clockMs), map[]) &&
            Follows(s, TaskRequestHandled(s, timeUs, request, clockMs), g)
  {
    hide Core, LedgerOk, Follows, TasksKept;
    if Rejects(s.tasks, request) {
      SentOk(s, map[], timeUs, ErrorEvent("task_rejected"), None, g);
    } else {
      var nowMs := timeUs / 1000;
      var mid := s.(tasks := Admitted(s.tasks, request, nowMs, s.config.defaultDeadlineMs));
      var event := TaskAcknowledgedEvent(AckFor(request, Some(s.config.providerId), nowMs, s.config.defaultDeadlineMs));
      AdmitKeepsTasks(s.tasks, request, nowMs, s.config.defaultDeadlineMs);
      TasksChange(s, mid.tasks, g);
      LedgerAdmits(s.tasks, s.log, request, nowMs, s.config.defaultDeadlineMs,
                   ToClient(RawText(Draw(mid, timeUs, event, None), false)));
      hide Admitted;
      BufferedOk(mid, map[], timeUs, event, clockMs, g);
      FollowsTrans(s, mid, SentAndBuffered(mid, timeUs, event, clockMs), g);
    }
  }

  lemma AdmitKeepsTasks(t: TaskState, request: TaskRequested, nowMs: nat, defaultMs: nat)
    requires !Rejects(t, request)
    ensures TasksKept(t, Admitted(t, request, nowMs, defaultMs)) &&
            SameBuffer(t, Admitted(t, request, nowMs, defaultMs))
  {
  }

  lemma TaskCancelHandledOk(s: SessionState, timeUs: nat, id: Id, reason: Option<string>, clockMs: nat, g: Id)
    requires Inv(s, map[])
    ensures Inv(TaskCancelHandled(s, timeUs, id, reason, clockMs), map[]) &&
            Follows(s, TaskCancelHandled(s, timeUs, id, reason, clockMs), g)
  {
    hide Core, LedgerOk, Follows;
    FollowsRefl(s, g);
    if id in s.tasks.active {
      var o := CancelledOutcome(s.tasks, id, reason);
      assert Reports(s.tasks, s.log, id, Cancelled, o);
      BatchOk(s, [id], Cancelled, [o], timeUs, clockMs, g);
      var mid := s.(tasks := ResolvedOne(s.tasks, id, Cancelled));
      assert Resolved(s.tasks, [id], Cancelled) == ResolvedOne(s.tasks, id, Cancelled) by {
        assert [id][..0] == [];
      }
      hide ResolvedOne;
      assert OutcomesSent(mid, timeUs, [o], clockMs) == SentAndBuffered(mid, timeUs, TaskOutcomeEvent(o), clockMs) by {
        assert [o][..0] == [];
      }
    }
  }

  lemma PurgedOk(s: SessionState, cursor: nat, nowMs: nat, g: Id)
    requires Inv(s, map[])
    ensures var purged := s.(tasks := Purged(s.tasks, cursor, nowMs)); Inv(purged, map[]) && Follows(s, purged, g)
  {
    var dead := Ascending(Dead(s.tasks, cursor, nowMs));
    var after := Forget(s.tasks, dead);
    hide LedgerOk, WireOk, ProviderOk, TasksKept, Follows, BufferOk;
    ForgetDrops(s.tasks, dead);
    ForgetKeepsTasks(s.tasks, after);
    hide Forget;
    BufferForgets(s.tasks, s.log, s.sequence, s.minted, dead);
    LedgerIgnoresBuffer(s.tasks, after, s.log, map[]);
    assert s.log + [] == s.log;
    FollowsAppend(s, s.(tasks := after), [], g);
  }

  lemma ForgetKeepsTasks(t: TaskState, after: TaskState)
    requires after == t.(bufferedById := after.bufferedById, bufferedBySeq := after.bufferedBySeq,
                         purged := after.purged)
    requires t.purged <= after.purged
    ensures TasksKept(t, after)
  {
    forall id ensures EvidenceFor(after, id) == EvidenceFor(t, id) {
    }
  }

  lemma {:induction false} ReplaySentOk(s: SessionState, envelopes: seq<Envelope>, g: Id)
    requires Inv(s, map[])
    requires forall e :: e in envelopes ==> e.generation.None?
    requires s.sequence < U64_MAX ==> forall e :: e in envelopes ==> ToClient(RawText(e, false)) in s.log
    ensures Inv(ReplaySent(s, envelopes), map[]) && Follows(s, ReplaySent(s, envelopes), g)
    ensures s.log <= ReplaySent(s, envelopes).log && ReplaySent(s, envelopes).sequence == s.sequence
  {
    hide Inv, Follows;
    if envelopes == [] {
      FollowsRefl(s, g);
    } else {
      var front, last := envelopes[..|envelopes| - 1], envelopes[|envelopes| - 1];
      assert last in envelopes;
      var t := ReplaySent(s, front);
      ReplaySentOk(s, front, g);
      ReplayOneOk(t, last, g);
      FollowsTrans(s, t, ReplaySent(s, envelopes), g);
    }
  }

  lemma ReplayOneOk(s: SessionState, envelope: Envelope, g: Id)
    requires Inv(s, map[]) && envelope.generation.None?
    requires s.sequence < U64_MAX ==> ToClient(RawText(envelope, false)) in s.log
    ensures var after := s.(log := s.log + [ToClient(RawText(envelope, true))]);
            Inv(after, map[]) && Follows(s, after, g)
  {
    var e := ToClient(RawText(envelope, true));
    hide LedgerOk, WireOk, ProviderOk, BufferOk, TasksKept, Follows;
    TasksKeptRefl(s.tasks);
    if s.sequence < U64_MAX {
      var k :| 0 <= k < |s.log| && s.log[k] == ToClient(RawText(envelope, false));
      assert OriginalOf(s.log[k], e);
    }
    WireAppend(s.log, s.sequence, s.minted, e);
    ProviderAppend(s.log, s.active, s.active, s.providerOpen, s.lease.version, s.minted, e);
    LedgerAppend(s.tasks, s.log, map[], e);
    BufferGrows(s.tasks, s.log, s.sequence, s.minted, [e], s.sequence, s.minted);
    FollowsAppend(s, s.(log := s.log + [e]), [e], g);
  }

  lemma ReplayedUntagged(s: SessionState, cursor: nat, nowMs: nat)
    requires Inv(s, map[])
    ensures forall e :: e in Replayed(s.tasks, cursor, nowMs) ==> e.generation.None?
    ensures s.sequence < U64_MAX ==>
              forall e :: e in Replayed(s.tasks, cursor, nowMs) ==> ToClient(RawText(e, false)) in s.log
  {
    hide LedgerOk, WireOk, ProviderOk;
    var qs := Ascending(Live(s.tasks, cursor, nowMs));
    AscendingIsSorted(Live(s.tasks, cursor, nowMs));
    assert forall i :: 0 <= i < |qs| ==> qs[i] in qs;
    forall e | e in Replayed(s.tasks, cursor, nowMs)
      ensures e.generation.None?
      ensures s.sequence < U64_MAX ==> ToClient(RawText(e, false)) in s.log
    {
      var i :| 0 <= i < |qs| && e == s.tasks.bufferedBySeq[qs[i]].envelope;
    }
  }

  lemma ResumeHandledOk(s: SessionState, timeUs: nat, sameSession: bool, lastSeen: nat, clockMs: nat, g: Id)
    requires Inv(s, map[])
    ensures var after := ResumeHandled(s, timeUs, sameSession, lastSeen, clockMs);
            Inv(after, map[]) && Follows(s, after, g)
  {
    if !sameSession {
      SentOk(s, map[], timeUs, ErrorEvent("session_mismatch"), None, g);
    } else {
      var purged := s.(tasks := Purged(s.tasks, lastSeen, clockMs));
      var replay := Replayed(s.tasks, lastSeen, clockMs);
      ReplayedUntagged(s, lastSeen, clockMs);
      hide Inv, Follows, Purged, Replayed;
      PurgedOk(s, lastSeen, clockMs, g);
      var replayed := ReplaySent(purged, replay);
      ReplaySentOk(purged, replay, g);
      FollowsTrans(s, purged, replayed, g);
      hide ReplaySent;
      SentOk(replayed, map[], timeUs, Pong, None, g);
      FollowsTrans(s, replayed, Sent(replayed, timeUs, Pong, None), g);
    }
  }

  lemma FrameOfferedOk(s: SessionState, timeUs: nat, queueFull: bool, reportDrop: bool, g: Id)
    requires Inv(s, map[])
    ensures var after := FrameOffered(s, timeUs, queueFull, reportDrop); Inv(after, map[]) && Follows(s, after, g)
  {
    hide Inv, Follows;
    FollowsRefl(s, g);
    ToldOk(s, map[], AudioFrame(timeUs), g);
    SentOk(s, map[], timeUs, ErrorEvent("provider_backpressure"), None, g);
  }

  lemma PublishedOk(s: SessionState, timeUs: nat, publish: bool, g: Id)
    requires Inv(s, map[])
    ensures Inv(Observed(s, timeUs, publish), map[]) && Follows(s, Observed(s, timeUs, publish), g)
  {
    hide Inv, Follows;
    if publish {
      var sent := Sent(s, timeUs, EndpointingPrediction, None);
      SentOk(s, map[], timeUs, EndpointingPrediction, None, g);
      SentOk(sent, map[], timeUs, Observation, None, g);
      FollowsTrans(s, sent, Sent(sent, timeUs, Observation, None), g);
    } else {
      DrawnOk(s, map[], g);
      DrawnOk(Drawn(s), map[], g);
      FollowsTrans(s, Drawn(s), Drawn(Drawn(s)), g);
    }
  }

  lemma AudioHandledOk(s: SessionState, timeUs: nat, queueFull: bool, reportDrop: bool, publish: bool,
                       answer: EngineAnswer, g: Id)
    requires Inv(s, map[])
    ensures var after := AudioHandled(s, timeUs, queueFull, reportDrop, publish, answer);
            Inv(after, map[]) && Follows(s, after, g)
  {
    hide Inv, Follows, FrameOffered, Observed, Decided;
    if !s.providerOpen {
      SentOk(s, map[], timeUs, ErrorEvent("provider_closed"), None, g);
    } else {
      var offered := FrameOffered(s, timeUs, queueFull, reportDrop);
      var observed := Observed(offered, timeUs, publish);
      FrameOfferedOk(s, timeUs, queueFull, reportDrop, g);
      PublishedOk(offered, timeUs, publish, g);
      FollowsTrans(s, offered, observed, g);
      match answer {
        case Decisions(actions) =>
          DecidedOk(observed, actions, timeUs, g);
          FollowsTrans(s, observed, Decided(observed, actions, timeUs), g);
        case EngineFailed =>
          SentOk(observed, map[], timeUs, ErrorEvent("runtime_error"), None, g);
          FollowsTrans(s, observed, Sent(observed, timeUs, ErrorEvent("runtime_error"), None), g);
      }
    }
  }

  // ---------- the end of the session ----------

  lemma ClosedOk(s: SessionState, g: Id)
    requires Inv(s, map[])
    ensures Inv(Closed(s), map[]) && Follows(s, Closed(s), g)
  {
    var cancelled := if s.active.Some? then Told(s.(active := None), CancelGeneration(s.active.value.id)) else s;
    FollowsRefl(s, g);
    if s.active.Some? {
      AbandonedOk(s, g);
    }
    hide Core, LedgerOk;
    ToldOk(cancelled, map[], Close, g);
    var told := Told(cancelled, Close);
    FollowsTrans(s, cancelled, told, g);
    OpenFlagOk(told, g);
    FollowsTrans(s, told, Closed(s), g);
  }

  lemma OpenFlagOk(s: SessionState, g: Id)
    requires Inv(s, map[])
    ensures Inv(s.(open := false), map[]) && Follows(s, s.(open := false), g)
  {
    hide LedgerOk, WireOk, BufferOk, ProviderOk;
    FollowsRefl(s, g);
  }

  // The active generation is cancelled with the provider and dropped; the lease is left as it is.
  lemma AbandonedOk(s: SessionState, g: Id)
    requires Inv(s, map[]) && s.active.Some?
    ensures var after := Told(s.(active := None), CancelGeneration(s.active.value.id));
            Inv(after, map[]) && Follows(s, after, g)
  {
    var id := s.active.value.id;
    var after := Told(s.(active := None), CancelGeneration(id));
    var e := ToProvider(CancelGeneration(id));
    hide LedgerOk, WireOk, ProviderOk, BufferOk, TasksKept, Follows;
    TasksKeptRefl(s.tasks);
    if s.providerOpen {
      WireAppend(s.log, s.sequence, s.minted, e);
      ProviderAppend(s.log, s.active, None, true, s.lease.version, s.minted, e);
      LedgerAppend(s.tasks, s.log, map[], e);
      BufferGrows(s.tasks, s.log, s.sequence, s.minted, [e], s.sequence, s.minted);
      FollowsAppend(s, after, [e], g);
    } else {
      ProviderGoneQuiet(s.log, s.active, s.lease.version, s.minted);
      assert s.log + [] == s.log;
      FollowsAppend(s, after, [], g);
    }
  }

  lemma ProviderGoneOk(s: SessionState, g: Id)
    requires Inv(s, map[])
    ensures Inv(s.(providerOpen := false), map[]) && Follows(s, s.(providerOpen := false), g)
  {
    hide LedgerOk, WireOk, BufferOk;
    FollowsRefl(s, g);
    ProviderGoneQuiet(s.log, s.active, s.lease.version, s.minted);
  }

  // ---------- steps and runs ----------

  lemma StepOk(s: SessionState, input: Input, g: Id)
    requires Inv(s, map[])
    ensures Inv(Step(s, input), map[]) && Follows(s, Step(s, input), g)
  {
    hide Inv, Follows, TaskRequestHandled, TaskCancelHandled, ResumeHandled, Started, Interrupted, AudioHandled,
      EmissionHandled, Closed, Sent;
    FollowsRefl(s, g);
    var o := input.oracle;
    match input.stimulus {
      case Quiet =>
      case EventRefused(t, code) => SentOk(s, map[], t, ErrorEvent(code), None, g);
      case CapabilityOffered(t) => SentOk(s, map[], t, CapabilitySelected, None, g);
      case ImageShown(t) => SentOk(s, map[], t, VisualInputRejected, None, g);
      case Pinged(t) => SentOk(s, map[], t, Pong, None, g);
      case TaskAsked(t, request) => TaskRequestHandledOk(s, t, request, o.clockMs, g);
      case TaskCancelled(t, id, reason) => TaskCancelHandledOk(s, t, id, reason, o.clockMs, g);
      case ResumeAsked(t, same, lastSeen) => ResumeHandledOk(s, t, same, lastSeen, o.clockMs, g);
      case TranscriptFinal(t) => StartedOk(s, t, g);
      case BargeIn(t) => InterruptedOk(s, HardYield, t, g);
      case AudioArrived(t, full, report, publish, answer) => AudioHandledOk(s, t, full, report, publish, answer, g);
      case FromProvider(e) => EmissionHandledOk(s, e, o, g);
      case ProviderGone => ProviderGoneOk(s, g);
      case Shutdown => ClosedOk(s, g);
    }
  }

  lemma StartOk(config: Config)
    ensures Inv(Start(config), map[])
  {
    NothingInLedger();
    NothingBuffered();
    hide LedgerOk, BufferOk;
  }

  lemma NothingInLedger()
    ensures LedgerOk(EMPTY_LEDGER, [], map[])
  {
  }

  lemma NothingBuffered()
    ensures BufferOk(EMPTY_LEDGER, [], 0, 0)
  {
  }

  lemma {:induction false} RunOk(config: Config, inputs: seq<Input>)
    ensures Inv(Run(config, inputs), map[])
  {
    if inputs == [] {
      StartOk(config);
      SentInv(Start(config), map[], 0, SessionCreated, None);
    } else {
      var front := inputs[..|inputs| - 1];
      RunOk(config, front);
      StepOk(Run(config, front), inputs[|inputs| - 1], 0);
    }
  }

  // A longer run follows a shorter one.
  lemma {:induction false} RunFollows(config: Config, inputs: seq<Input>, more: seq<Input>, g: Id)
    ensures Follows(Run(config, inputs), Run(config, inputs + more), g)
    decreases |more|
  {
    hide Follows, Inv, Step;
    var s := Run(config, inputs);
    if more == [] {
      assert inputs + more == inputs;
      FollowsRefl(s, g);
    } else {
      var front, last := more[..|more| - 1], more[|more| - 1];
      RunFollows(config, inputs, front, g);
      assert inputs + more == inputs + front + [last];
      assert (inputs + more)[..|inputs + more| - 1] == inputs + front;
      var t := Run(config, inputs + front);
      RunOk(config, inputs + front);
      StepOk(t, last, g);
      FollowsTrans(s, t, Step(t, last), g);
    }
  }
}
