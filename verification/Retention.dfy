// How long the resume buffer keeps what was sent: over whole runs, in the clock readings of their steps.
module Retention {
  import opened Protocol
  import opened TaskLedger
  import opened Session
  import opened WireInvariant
  import opened LedgerInvariant
  import opened BufferInvariant
  import opened SessionInvariant
  import opened SessionSteps
  import opened SessionTheorems
  import opened Stall
  import opened Egress
  import opened SessionLaws
  import opened Gate
  import opened Evidence

  // ---------- one step's stamps ----------

  // The buffer holds nothing of numbers not yet given.
  predicate NothingAhead(s: SessionState) {
    forall q :: q in s.tasks.bufferedBySeq ==> q <= s.sequence
  }

  // What was in the buffer is there still as it was, what is new carries this clock reading and a later
  // number, and nothing is dropped.
  ghost predicate Stamps(s: SessionState, after: SessionState, clockMs: nat) {
    && after.tasks.purged == s.tasks.purged
    && (s.sequence <= U64_MAX ==> s.sequence <= after.sequence <= U64_MAX)
    && (s.sequence <= U64_MAX && after.sequence < U64_MAX && NothingAhead(s) ==>
          && NothingAhead(after)
          && (forall q :: q in s.tasks.bufferedBySeq ==>
                q in after.tasks.bufferedBySeq && after.tasks.bufferedBySeq[q] == s.tasks.bufferedBySeq[q])
          && forall q :: q in after.tasks.bufferedBySeq && q !in s.tasks.bufferedBySeq ==>
               q > s.sequence && after.tasks.bufferedBySeq[q].bufferedAtMs == clockMs)
  }

  lemma StampsTrans(a: SessionState, b: SessionState, c: SessionState, clockMs: nat)
    requires Stamps(a, b, clockMs) && Stamps(b, c, clockMs)
    ensures Stamps(a, c, clockMs)
  {
  }

  lemma StampsNothing(s: SessionState, after: SessionState, clockMs: nat)
    requires after.tasks.bufferedBySeq == s.tasks.bufferedBySeq && after.tasks.purged == s.tasks.purged
    requires s.sequence <= U64_MAX ==> s.sequence <= after.sequence <= U64_MAX
    ensures Stamps(s, after, clockMs)
  {
  }

  lemma BufferedStamps(s: SessionState, timeUs: nat, event: Event, clockMs: nat)
    ensures Stamps(s, SentAndBuffered(s, timeUs, event, clockMs), clockMs)
  {
  }

  lemma {:induction false} MarksKeepBuffer(s: SessionState, timeUs: nat, g: Id, phases: seq<LatencyPhase>)
    ensures var after := MarksSent(s, timeUs, g, phases);
            after.tasks == s.tasks && (s.sequence <= U64_MAX ==> s.sequence <= after.sequence <= U64_MAX)
  {
    if phases != [] {
      MarksKeepBuffer(s, timeUs, g, phases[..|phases| - 1]);
    }
  }

  lemma {:induction false} OutcomesStamp(s: SessionState, timeUs: nat, outcomes: seq<TaskOutcome>, clockMs: nat)
    ensures Stamps(s, OutcomesSent(s, timeUs, outcomes, clockMs), clockMs)
  {
    hide Stamps, SentAndBuffered;
    if outcomes == [] {
      StampsNothing(s, s, clockMs);
    } else {
      var t := OutcomesSent(s, timeUs, outcomes[..|outcomes| - 1], clockMs);
      OutcomesStamp(s, timeUs, outcomes[..|outcomes| - 1], clockMs);
      BufferedStamps(t, timeUs, TaskOutcomeEvent(outcomes[|outcomes| - 1]), clockMs);
      StampsTrans(s, t, OutcomesSent(s, timeUs, outcomes, clockMs), clockMs);
    }
  }

  lemma {:induction false} ResolvedKeepsBuffer(t: TaskState, ids: seq<Id>, result: TaskResult)
    ensures SameBuffer(t, Resolved(t, ids, result))
  {
    if ids != [] {
      ResolvedKeepsBuffer(t, ids[..|ids| - 1], result);
    }
  }

  lemma AttachedStamps(s: SessionState, id: Id, kind: EvidenceKind, evidence: Id, timeUs: nat, clockMs: nat)
    ensures Stamps(s, AttachedTo(s, id, kind, evidence, timeUs, clockMs), clockMs)
  {
    var attached := s.(tasks := EvidenceAttached(s.tasks, id, kind, evidence));
    assert SameBuffer(s.tasks, attached.tasks);
    hide EvidenceAttached;
    var link := EvidenceLink(id, evidence, TaskProof, 1.0);
    var linked := attached.(tasks := EvidenceLinked(attached.tasks, link));
    assert SameBuffer(s.tasks, linked.tasks);
    hide EvidenceLinked, Linked, Attaches, Stamps, SentAndBuffered;
    StampsNothing(s, s, clockMs);
    StampsNothing(s, attached, clockMs);
    StampsNothing(s, linked, clockMs);
    BufferedStamps(linked, timeUs, EvidenceLinkEvent(link), clockMs);
    StampsTrans(s, linked, SentAndBuffered(linked, timeUs, EvidenceLinkEvent(link), clockMs), clockMs);
  }

  lemma {:induction false} AttachedToAllStamps(s: SessionState, ids: seq<Id>, kind: EvidenceKind, evidence: Id,
                                               timeUs: nat, clockMs: nat)
    ensures Stamps(s, AttachedToAll(s, ids, kind, evidence, timeUs, clockMs), clockMs)
  {
    hide Stamps, AttachedTo;
    if ids == [] {
      StampsNothing(s, s, clockMs);
    } else {
      var t := AttachedToAll(s, ids[..|ids| - 1], kind, evidence, timeUs, clockMs);
      AttachedToAllStamps(s, ids[..|ids| - 1], kind, evidence, timeUs, clockMs);
      AttachedStamps(t, ids[|ids| - 1], kind, evidence, timeUs, clockMs);
      StampsTrans(s, t, AttachedToAll(s, ids, kind, evidence, timeUs, clockMs), clockMs);
    }
  }

  // ---------- an accepted emission ----------

  lemma BatchStamps(s: SessionState, mid: SessionState, timeUs: nat, outcomes: seq<TaskOutcome>, clockMs: nat)
    requires SameBuffer(s.tasks, mid.tasks) && mid.sequence == s.sequence
    ensures Stamps(s, OutcomesSent(mid, timeUs, outcomes, clockMs), clockMs)
  {
    hide Stamps, OutcomesSent;
    StampsNothing(s, mid, clockMs);
    OutcomesStamp(mid, timeUs, outcomes, clockMs);
    StampsTrans(s, mid, OutcomesSent(mid, timeUs, outcomes, clockMs), clockMs);
  }

  lemma CheckedStamps(s: SessionState, offsetUs: nat, output: ProviderOutput, o: Oracle)
    requires s.active.Some?
    ensures Stamps(s, Checked(s, offsetUs, output, o), o.clockMs)
  {
    var (latency, marks) := Observe(s.active.value.latency, output);
    var timeUs := MediaTime(s, offsetUs);
    var observed := s.(active := Some(s.active.value.(latency := latency)));
    MarksKeepBuffer(observed, timeUs, s.active.value.id, marks);
    hide Observe, MarksSent, Stamps, OutcomesSent;
    var marked := MarksSent(observed, timeUs, s.active.value.id, marks);
    var ids := Arrange(o.expiryOrder, Expired(marked.tasks, timeUs / 1000));
    ResolvedKeepsBuffer(marked.tasks, ids, Failure);
    StampsNothing(s, marked, o.clockMs);
    BatchStamps(marked, marked.(tasks := Resolved(marked.tasks, ids, Failure)), timeUs,
                TimedOutOutcomes(marked.tasks, ids), o.clockMs);
    StampsTrans(s, marked, Checked(s, offsetUs, output, o), o.clockMs);
  }

  lemma EmittedStamps(s: SessionState, event: Event, g: Id, timeUs: nat, verdict: SafetyVerdict, clockMs: nat)
    ensures Stamps(s, EventEmitted(s, event, g, timeUs, verdict).0, clockMs)
  {
    var after := EventEmitted(s, event, g, timeUs, verdict).0;
    assert after.tasks == s.tasks && (after.sequence == s.sequence || after.sequence == NextSequence(s.sequence));
    hide EventEmitted, Stamps;
    StampsNothing(s, after, clockMs);
  }

  lemma EventStamps(s: SessionState, g: Id, event: Event, timeUs: nat, o: Oracle)
    ensures Stamps(s, EventAccepted(s, g, event, timeUs, o), o.clockMs)
  {
    var (sent, emitted) := EventEmitted(s, event, g, timeUs, o.verdict);
    var collected := EvidenceCollected(sent, g, emitted, timeUs, o.evidenceOrder, o.clockMs);
    EmittedStamps(s, event, g, timeUs, o.verdict, o.clockMs);
    hide EventEmitted, Stamps, AttachedToAll, OutcomesSent;
    StampsNothing(sent, sent, o.clockMs);
    if emitted.Some? && Classify(emitted.value.event).Some? {
      AttachedToAllStamps(sent, Arrange(o.evidenceOrder, BoundTo(sent.tasks, g)), Classify(emitted.value.event).value,
                          emitted.value.eventId, timeUs, o.clockMs);
    }
    StampsTrans(s, sent, collected, o.clockMs);
    FinishedStamps(collected, g, timeUs, o.completionOrder, o.clockMs);
    StampsTrans(s, collected, Finished(collected, g, timeUs, o.completionOrder, o.clockMs), o.clockMs);
  }

  lemma FinishedStamps(s: SessionState, g: Id, timeUs: nat, order: seq<Id>, clockMs: nat)
    ensures Stamps(s, Finished(s, g, timeUs, order, clockMs), clockMs)
  {
    var ids := Arrange(order, BoundTo(s.tasks, g));
    ResolvedKeepsBuffer(s.tasks, ids, Success);
    hide Stamps, OutcomesSent;
    BatchStamps(s, s.(active := None, tasks := Resolved(s.tasks, ids, Success)), timeUs,
                CompletedOutcomes(s.tasks, ids), clockMs);
  }

  lemma EmissionStamps(s: SessionState, e: Emission, o: Oracle)
    ensures Stamps(s, EmissionHandled(s, e, o), o.clockMs)
  {
    hide Stamps, IsAccepted, Checked, EventAccepted, EmissionHandled;
    if IsAccepted(s, e) {
      AcceptedStamps(s, e, o);
    } else {
      NotAcceptedIs(s, e, o);
      StampsNothing(s, EmissionHandled(s, e, o), o.clockMs);
    }
  }

  lemma AcceptedStamps(s: SessionState, e: Emission, o: Oracle)
    requires IsAccepted(s, e)
    ensures Stamps(s, EmissionHandled(s, e, o), o.clockMs)
  {
    hide Stamps, Checked, EventAccepted, EmissionHandled, MediaTime;
    var checked := Checked(s, e.mediaOffsetUs, e.output, o);
    var timeUs, g := MediaTime(s, e.mediaOffsetUs), e.generation.value;
    AcceptedIs(s, e, o);
    CheckedStamps(s, e.mediaOffsetUs, e.output, o);
    match e.output {
      case ProviderEvent(event) =>
        EventStamps(checked, g, event, timeUs, o);
        StampsTrans(s, checked, EventAccepted(checked, g, event, timeUs, o), o.clockMs);
      case Audio =>
        StampsNothing(checked, MediaSent(checked, timeUs, g, o.mediaFull), o.clockMs);
        StampsTrans(s, checked, MediaSent(checked, timeUs, g, o.mediaFull), o.clockMs);
    }
  }

  // ---------- the other steps ----------

  lemma StartKeepsBuffer(s: SessionState, timeUs: nat)
    ensures SameBuffer(s.tasks, Started(s, timeUs).tasks)
  {
  }

  lemma EndKeepsTasks(s: SessionState, action: InteractionAction, timeUs: nat)
    ensures Interrupted(s, action, timeUs).tasks == s.tasks && Closed(s).tasks == s.tasks
  {
  }

  lemma ActedKeepsBuffer(s: SessionState, action: InteractionAction, timeUs: nat)
    ensures SameBuffer(s.tasks, Acted(s, action, timeUs).tasks)
  {
    hide Started, Interrupted, Closed;
    StartKeepsBuffer(s, timeUs);
    EndKeepsTasks(s, action, timeUs);
  }

  lemma {:induction false} DecidedKeepsBuffer(s: SessionState, actions: seq<InteractionAction>, timeUs: nat)
    ensures SameBuffer(s.tasks, Decided(s, actions, timeUs).tasks)
  {
    if actions != [] {
      var t, action := Decided(s, actions[..|actions| - 1], timeUs), actions[|actions| - 1];
      var tag := if action == HardYield && t.active.Some? then Some(t.active.value.id) else None;
      DecidedKeepsBuffer(s, actions[..|actions| - 1], timeUs);
      ActedKeepsBuffer(Sent(t, timeUs, InteractionDecision(action), tag), action, timeUs);
      hide Acted;
    }
  }

  lemma AudioKeepsBuffer(s: SessionState, a: Stimulus)
    requires a.AudioArrived?
    ensures SameBuffer(s.tasks, AudioHandled(s, a.timeUs, a.queueFull, a.reportDrop, a.publish, a.answer).tasks)
  {
    var observed := Observed(FrameOffered(s, a.timeUs, a.queueFull, a.reportDrop), a.timeUs, a.publish);
    ObservedKeepsTasks(s, a.timeUs, a.queueFull, a.reportDrop, a.publish);
    hide Observed, FrameOffered, Decided;
    if a.answer.Decisions? {
      DecidedKeepsBuffer(observed, a.answer.actions, a.timeUs);
    }
  }

  lemma RequestStamps(s: SessionState, timeUs: nat, request: TaskRequested, clockMs: nat)
    ensures Stamps(s, TaskRequestHandled(s, timeUs, request, clockMs), clockMs)
  {
    hide Stamps, Rejects, AckFor, SentAndBuffered;
    if Rejects(s.tasks, request) {
      StampsNothing(s, TaskRequestHandled(s, timeUs, request, clockMs), clockMs);
    } else {
      var nowMs, defaultMs := timeUs / 1000, s.config.defaultDeadlineMs;
      var admitted := s.(tasks := Admitted(s.tasks, request, nowMs, defaultMs));
      var event := TaskAcknowledgedEvent(AckFor(request, Some(s.config.providerId), nowMs, defaultMs));
      StampsNothing(s, admitted, clockMs);
      BufferedStamps(admitted, timeUs, event, clockMs);
      StampsTrans(s, admitted, SentAndBuffered(admitted, timeUs, event, clockMs), clockMs);
    }
  }

  lemma CancelStamps(s: SessionState, timeUs: nat, id: Id, reason: Option<string>, clockMs: nat)
    ensures Stamps(s, TaskCancelHandled(s, timeUs, id, reason, clockMs), clockMs)
  {
    hide Stamps, SentAndBuffered;
    if id !in s.tasks.active {
      StampsNothing(s, s, clockMs);
    } else {
      var resolved := s.(tasks := ResolvedOne(s.tasks, id, Cancelled));
      var event := TaskOutcomeEvent(CancelledOutcome(s.tasks, id, reason));
      StampsNothing(s, resolved, clockMs);
      BufferedStamps(resolved, timeUs, event, clockMs);
      StampsTrans(s, resolved, SentAndBuffered(resolved, timeUs, event, clockMs), clockMs);
    }
  }

  lemma SequenceGrows(s: SessionState, input: Input)
    requires Inv(s, map[])
    ensures s.sequence <= Step(s, input).sequence <= U64_MAX
  {
    StepOk(s, input, 0);
    hide Step, TasksKept, LedgerOk, WireOk, ProviderOk, BufferOk;
  }

  lemma QuietKeepsBuffer(s: SessionState, input: Input)
    requires !input.stimulus.TaskAsked? && !input.stimulus.TaskCancelled? && !input.stimulus.FromProvider?
    requires !input.stimulus.ResumeAsked?
    ensures SameBuffer(s.tasks, Step(s, input).tasks)
  {
    hide Started, Interrupted, Closed, AudioHandled;
    match input.stimulus {
      case AudioArrived(_, _, _, _, _) => AudioKeepsBuffer(s, input.stimulus);
      case TranscriptFinal(t) => StartKeepsBuffer(s, t);
      case BargeIn(t) => EndKeepsTasks(s, HardYield, t);
      case Shutdown => EndKeepsTasks(s, HardYield, 0);
      case _ =>
    }
  }

  lemma StepStamps(s: SessionState, input: Input)
    requires Inv(s, map[]) && !input.stimulus.ResumeAsked?
    ensures Stamps(s, Step(s, input), input.oracle.clockMs)
  {
    var o := input.oracle;
    hide Inv, Stamps, TaskRequestHandled, TaskCancelHandled, EmissionHandled, SameBuffer;
    if s.open && input.stimulus.TaskAsked? {
      RequestStamps(s, input.stimulus.timeUs, input.stimulus.request, o.clockMs);
    } else if s.open && input.stimulus.TaskCancelled? {
      CancelStamps(s, input.stimulus.timeUs, input.stimulus.id, input.stimulus.reason, o.clockMs);
    } else if s.open && input.stimulus.FromProvider? {
      EmissionStamps(s, input.stimulus.emission, o);
    } else {
      QuietStamps(s, input);
    }
  }

  lemma QuietStamps(s: SessionState, input: Input)
    requires Inv(s, map[]) && !input.stimulus.ResumeAsked?
    requires !s.open || (!input.stimulus.TaskAsked? && !input.stimulus.TaskCancelled? && !input.stimulus.FromProvider?)
    ensures Stamps(s, Step(s, input), input.oracle.clockMs)
  {
    SequenceGrows(s, input);
    hide Inv, Stamps;
    if s.open {
      QuietKeepsBuffer(s, input);
      hide Step;
      StampsNothing(s, Step(s, input), input.oracle.clockMs);
    } else {
      StampsNothing(s, s, input.oracle.clockMs);
    }
  }

  // ---------- a resumption's drops ----------

  lemma ResumeTasks(s: SessionState, input: Input)
    requires s.open && input.stimulus.ResumeAsked? && input.stimulus.sameSession
    ensures Step(s, input).tasks ==
            Forget(s.tasks, Ascending(Dead(s.tasks, input.stimulus.lastSeen, input.oracle.clockMs)))
  {
    var r, clockMs := input.stimulus, input.oracle.clockMs;
    var purged := s.(tasks := Purged(s.tasks, r.lastSeen, clockMs));
    ReplayAdds(purged, Replayed(s.tasks, r.lastSeen, clockMs));
    hide Forget, Replayed, ReplaySent, Adds, Ascending, Dead;
  }

  // A resumption of this session drops exactly what lies above its cursor and has been kept for more
  // than 30 seconds.
  lemma ResumeDrops(s: SessionState, input: Input)
    requires s.open && input.stimulus.ResumeAsked?
    ensures var after := Step(s, input);
            forall q :: q in s.tasks.bufferedBySeq ==>
              if input.stimulus.sameSession && q > input.stimulus.lastSeen &&
                 input.oracle.clockMs > s.tasks.bufferedBySeq[q].bufferedAtMs + 30_000
              then q !in after.tasks.bufferedBySeq && q in after.tasks.purged
              else q in after.tasks.bufferedBySeq && after.tasks.bufferedBySeq[q] == s.tasks.bufferedBySeq[q]
    ensures var after := Step(s, input);
            && (forall q :: q in after.tasks.bufferedBySeq ==> q in s.tasks.bufferedBySeq)
            && forall q :: q in after.tasks.purged ==> q in s.tasks.purged || q in s.tasks.bufferedBySeq
  {
    var r, clockMs := input.stimulus, input.oracle.clockMs;
    if r.sameSession {
      var dead := Dead(s.tasks, r.lastSeen, clockMs);
      ResumeTasks(s, input);
      hide Step, Forget, Ascending;
      AscendingIsSorted(dead);
      ForgetDrops(s.tasks, Ascending(dead));
    }
  }

  // ---------- over runs ----------

  // After step `k` and before step `n`, a resumption was asked for with a cursor below `q`, more than 30
  // seconds after the clock reading of step `k`.
  predicate Expires(inputs: seq<Input>, k: nat, j: nat, q: nat)
    requires k < |inputs| && j < |inputs|
  {
    && k < j && inputs[j].stimulus.ResumeAsked? && inputs[j].stimulus.sameSession && inputs[j].stimulus.lastSeen < q
    && inputs[j].oracle.clockMs > inputs[k].oracle.clockMs + 30_000
  }

  ghost predicate Dropped(inputs: seq<Input>, k: nat, q: nat)
    requires k < |inputs|
  {
    exists j: nat :: j < |inputs| && Expires(inputs, k, j, q)
  }

  // What step `k` sent under number `q` is in the buffer with the clock reading of that step, unless it
  // has been dropped.
  predicate HeldSince(t: TaskState, q: nat, clockMs: nat) {
    q in t.bufferedBySeq && t.bufferedBySeq[q].bufferedAtMs == clockMs
  }

  ghost predicate Aged(config: Config, inputs: seq<Input>, k: nat, i: nat)
    requires i < |Run(config, inputs).log| && IsLedgerEntry(Run(config, inputs).log[i]) && k < |inputs|
  {
    var t := Run(config, inputs).tasks;
    var q := Run(config, inputs).log[i].message.envelope.sequence;
    KeptOr(t, q, inputs[k].oracle.clockMs, Dropped(inputs, k, q))
  }

  lemma DroppedLater(front: seq<Input>, last: Input, k: nat, q: nat)
    requires k < |front|
    ensures Dropped(front + [last], k, q) <==>
              Dropped(front, k, q) || Expires(front + [last], k, |front|, q)
  {
    var all := front + [last];
    if Dropped(front, k, q) {
      var j: nat :| j < |front| && Expires(front, k, j, q);
      assert Expires(all, k, j, q);
    }
    if Dropped(all, k, q) && !Expires(all, k, |front|, q) {
      var j: nat :| j < |all| && Expires(all, k, j, q);
      assert Expires(front, k, j, q);
    }
  }

  lemma NotDroppedAtOnce(inputs: seq<Input>, q: nat)
    requires inputs != []
    ensures !Dropped(inputs, |inputs| - 1, q)
  {
  }

  // The buffer half of the invariant, on its own.
  lemma BufferFacts(config: Config, inputs: seq<Input>)
    requires Run(config, inputs).sequence < U64_MAX
    ensures var s := Run(config, inputs);
            && NothingAhead(s) && EntriesOk(s.tasks, s.log, s.sequence, s.minted) && AllKept(s.tasks, s.log)
            && Inv(s, map[])
  {
    RunOk(config, inputs);
    hide Run, LedgerOk, WireOk, ProviderOk, LeaseOk, IndexesInverse, AllKept;
  }

  ghost predicate KeptOr(t: TaskState, q: nat, clockMs: nat, dropped: bool) {
    if dropped then q !in t.bufferedBySeq && q in t.purged else HeldSince(t, q, clockMs) && q !in t.purged
  }

  predicate Overdue(input: Input, q: nat, clockMs: nat) {
    input.stimulus.ResumeAsked? && input.stimulus.sameSession && input.stimulus.lastSeen < q &&
    input.oracle.clockMs > clockMs + 30_000
  }

  lemma ResumeKeeps(s: SessionState, input: Input, q: nat, clockMs: nat, dropped: bool)
    requires s.open && input.stimulus.ResumeAsked? && KeptOr(s.tasks, q, clockMs, dropped)
    requires forall x :: x in s.tasks.purged ==> x !in s.tasks.bufferedBySeq
    ensures KeptOr(Step(s, input).tasks, q, clockMs, dropped || Overdue(input, q, clockMs))
  {
    ResumeDrops(s, input);
    ResumePurges(s, input, q);
    hide Step;
  }

  lemma ResumePurges(s: SessionState, input: Input, q: nat)
    requires s.open && input.stimulus.ResumeAsked?
    ensures q in s.tasks.purged ==> q in Step(s, input).tasks.purged
    ensures q in Step(s, input).tasks.purged && q !in s.tasks.purged ==> q !in Step(s, input).tasks.bufferedBySeq
  {
    var r, clockMs := input.stimulus, input.oracle.clockMs;
    if r.sameSession {
      ResumeTasks(s, input);
      hide Step, Forget, Ascending, Dead;
      ForgetDrops(s.tasks, Ascending(Dead(s.tasks, r.lastSeen, clockMs)));
    }
  }

  lemma OthersKeep(s: SessionState, input: Input, q: nat, clockMs: nat, dropped: bool)
    requires Inv(s, map[]) && NothingAhead(s) && !input.stimulus.ResumeAsked? && KeptOr(s.tasks, q, clockMs, dropped)
    requires Step(s, input).sequence < U64_MAX && (q in s.tasks.purged ==> q <= s.sequence)
    ensures KeptOr(Step(s, input).tasks, q, clockMs, dropped)
  {
    StepStamps(s, input);
    SequenceGrows(s, input);
    hide Step, LedgerOk, WireOk, ProviderOk, BufferOk, LeaseOk;
  }

  lemma StepAged(config: Config, front: seq<Input>, last: Input, k: nat, i: nat)
    requires var all := front + [last];
             && Run(config, all).sequence < U64_MAX && Run(config, front).open
             && i < |Run(config, front).log| && k < |front|
             && IsLedgerEntry(Run(config, front).log[i]) && Aged(config, front, k, i)
    ensures i < |Run(config, front + [last]).log| && Run(config, front + [last]).log[i] == Run(config, front).log[i]
    ensures Aged(config, front + [last], k, i)
  {
    var all := front + [last];
    assert all[..|front|] == front;
    var s := Run(config, front);
    assert Run(config, all) == Step(s, last);
    var q, clockMs := s.log[i].message.envelope.sequence, front[k].oracle.clockMs;
    LogGrows(s, last);
    BufferBefore(config, front, last);
    DroppedLater(front, last, k, q);
    hide Run, Step, Inv, Dropped, EntriesOk, AllKept, NothingAhead;
    PurgedIsPast(s, q);
    var dropped := Dropped(front, k, q);
    if last.stimulus.ResumeAsked? {
      ResumeKeeps(s, last, q, clockMs, dropped);
    } else {
      OthersKeep(s, last, q, clockMs, dropped);
    }
  }

  lemma LogGrows(s: SessionState, input: Input)
    ensures s.log <= Step(s, input).log
  {
    StepAdds(s, input);
  }

  lemma BufferBefore(config: Config, front: seq<Input>, last: Input)
    requires Step(Run(config, front), last).sequence < U64_MAX
    ensures var s := Run(config, front);
            && s.sequence < U64_MAX && Inv(s, map[]) && NothingAhead(s)
            && EntriesOk(s.tasks, s.log, s.sequence, s.minted) && AllKept(s.tasks, s.log)
  {
    RunOk(config, front);
    SequenceGrows(Run(config, front), last);
    hide Run, Step, Inv, NothingAhead, EntriesOk, AllKept;
    BufferFacts(config, front);
  }

  lemma PurgedIsPast(s: SessionState, q: nat)
    requires EntriesOk(s.tasks, s.log, s.sequence, s.minted)
    ensures q in s.tasks.purged ==> q <= s.sequence
    ensures forall x :: x in s.tasks.purged ==> x !in s.tasks.bufferedBySeq
  {
  }

  // Whatever was dropped had been sent.
  ghost predicate SentAs(log: seq<Entry>, q: nat) {
    exists j :: 0 <= j < |log| && IsLedgerEntry(log[j]) && log[j].message.envelope.sequence == q
  }

  lemma SentAsStays(log: seq<Entry>, longer: seq<Entry>, q: nat)
    requires SentAs(log, q) && log <= longer
    ensures SentAs(longer, q)
  {
    var j :| 0 <= j < |log| && IsLedgerEntry(log[j]) && log[j].message.envelope.sequence == q;
    assert longer[j] == log[j];
  }

  lemma BufferedWasSent(s: SessionState, q: nat)
    requires EntriesOk(s.tasks, s.log, s.sequence, s.minted) && q in s.tasks.bufferedBySeq
    ensures SentAs(s.log, q)
  {
    var e := ToClient(RawText(s.tasks.bufferedBySeq[q].envelope, false));
    var j :| 0 <= j < |s.log| && s.log[j] == e;
    assert IsLedgerEntry(s.log[j]);
  }

  lemma {:induction false} PurgedWasSent(config: Config, inputs: seq<Input>, q: nat)
    requires Run(config, inputs).sequence < U64_MAX && q in Run(config, inputs).tasks.purged
    ensures SentAs(Run(config, inputs).log, q)
  {
    if inputs != [] {
      var front, last := inputs[..|inputs| - 1], inputs[|inputs| - 1];
      var s := Run(config, front);
      LogGrows(s, last);
      BufferBefore(config, front, last);
      if last.stimulus.ResumeAsked? {
        if s.open {
          ResumeDrops(s, last);
        }
      } else {
        StepStamps(s, last);
      }
      hide Step, Inv, EntriesOk, AllKept, NothingAhead, SentAs;
      if q in s.tasks.purged {
        PurgedWasSent(config, front, q);
      } else {
        BufferedWasSent(s, q);
      }
      SentAsStays(s.log, Run(config, inputs).log, q);
    }
  }

  // What a step sends is not a number sent before.
  lemma NumbersAreNew(config: Config, inputs: seq<Input>, n: nat, i: nat)
    requires Run(config, inputs).sequence < U64_MAX && n <= i < |Run(config, inputs).log|
    requires IsLedgerEntry(Run(config, inputs).log[i])
    ensures !SentAs(Run(config, inputs).log[..n], Run(config, inputs).log[i].message.envelope.sequence)
  {
    var log := Run(config, inputs).log;
    var q := log[i].message.envelope.sequence;
    forall j | 0 <= j < n && IsLedgerEntry(log[j])
      ensures log[j].message.envelope.sequence != q
    {
      WireOrder(config, inputs, j, i);
    }
    hide Run;
    assert forall j :: 0 <= j < n ==> log[..n][j] == log[j];
  }

  lemma NewAged(config: Config, front: seq<Input>, last: Input, i: nat)
    requires var all := front + [last];
             && Run(config, all).sequence < U64_MAX
             && |Run(config, front).log| <= i < |Run(config, all).log| && IsLedgerEntry(Run(config, all).log[i])
    ensures Aged(config, front + [last], |front|, i)
  {
    var all := front + [last];
    assert all[..|front|] == front;
    var s, after := Run(config, front), Run(config, all);
    var q := after.log[i].message.envelope.sequence;
    assert after == Step(s, last);
    StepAdds(s, last);
    assert !last.stimulus.ResumeAsked?;
    RunStamps(config, front, last);
    NumbersAreNew(config, all, |s.log|, i);
    NotDroppedAtOnce(all, q);
    BufferFacts(config, all);
    hide Run, Step, Inv, Dropped, EntriesOk, NothingAhead, SentAs, Stamps, IsLedgerEntry;
    assert after.log[..|s.log|] == s.log;
    if q in s.tasks.purged {
      PurgedWasSent(config, front, q);
    }
    if q in s.tasks.bufferedBySeq {
      BufferedWasSent(s, q);
    }
    NewIsHeld(s, after, q, last.oracle.clockMs, i);
  }

  lemma RunStamps(config: Config, front: seq<Input>, last: Input)
    requires Step(Run(config, front), last).sequence < U64_MAX && !last.stimulus.ResumeAsked?
    ensures var s := Run(config, front);
            && s.sequence < U64_MAX && NothingAhead(s) && Stamps(s, Step(s, last), last.oracle.clockMs)
            && EntriesOk(s.tasks, s.log, s.sequence, s.minted)
  {
    BufferBefore(config, front, last);
    StepStamps(Run(config, front), last);
  }

  lemma NewIsHeld(s: SessionState, after: SessionState, q: nat, clockMs: nat, i: nat)
    requires s.sequence < U64_MAX && after.sequence < U64_MAX && NothingAhead(s) && Stamps(s, after, clockMs)
    requires i < |after.log| && IsLedgerEntry(after.log[i]) && after.log[i].message.envelope.sequence == q
    requires AllKept(after.tasks, after.log) && q !in s.tasks.purged && q !in s.tasks.bufferedBySeq
    ensures KeptOr(after.tasks, q, clockMs, false)
  {
  }

  lemma {:induction false} PrefixOfRun(config: Config, inputs: seq<Input>, n: nat)
    requires n <= |inputs|
    ensures Run(config, inputs[..n]).log <= Run(config, inputs).log
    ensures Run(config, inputs).open ==> Run(config, inputs[..n]).open
  {
    if n == |inputs| {
      assert inputs[..n] == inputs;
    } else {
      var front, last := inputs[..|inputs| - 1], inputs[|inputs| - 1];
      PrefixOfRun(config, front, n);
      LogGrows(Run(config, front), last);
      assert front[..n] == inputs[..n];
      assert !Run(config, front).open ==> Step(Run(config, front), last) == Run(config, front);
      hide Step;
    }
  }

  lemma {:induction false} RunAged(config: Config, inputs: seq<Input>, k: nat, i: nat)
    requires Run(config, inputs).sequence < U64_MAX && Run(config, inputs).open
    requires WrittenAt(config, inputs, k, i)
    requires i < |Run(config, inputs).log| && IsLedgerEntry(Run(config, inputs).log[i])
    ensures Aged(config, inputs, k, i)
  {
    hide Step, Aged;
    var front, last := inputs[..|inputs| - 1], inputs[|inputs| - 1];
    assert inputs == front + [last];
    if k == |front| {
      NewAged(config, front, last, i);
    } else {
      BufferBefore(config, front, last);
      PrefixOfRun(config, inputs, |front|);
      PrefixOfRun(config, front, k + 1);
      assert front[..k] == inputs[..k] && front[..k + 1] == inputs[..k + 1] && inputs[..k + 1][..k] == inputs[..k];
      assert Run(config, front).log[i] == Run(config, inputs).log[i];
      RunAged(config, front, k, i);
      StepAged(config, front, last, k, i);
    }
  }

  // ---------- exactly what a resumption repeats ----------

  // In every run that is open, below saturation: a resumption repeats what step `k` sent under a number
  // above its cursor exactly if no resumption with a cursor below that number, this one included, was
  // asked for more than 30 seconds after step `k`.
  lemma RepeatedExactly(config: Config, inputs: seq<Input>, input: Input, k: nat, i: nat)
    requires Run(config, inputs).sequence < U64_MAX && Run(config, inputs).open
    requires WrittenAt(config, inputs, k, i)
    requires i < |Run(config, inputs).log| && IsLedgerEntry(Run(config, inputs).log[i])
    requires input.stimulus.ResumeAsked? && input.stimulus.sameSession
    requires input.stimulus.lastSeen < Run(config, inputs).log[i].message.envelope.sequence
    ensures var s := Run(config, inputs);
            var envelope := s.log[i].message.envelope;
            Written(s, Step(s, input), ToClient(RawText(envelope, true))) <==>
              forall j: nat :: j <= |inputs| ==> !Expires(inputs + [input], k, j, envelope.sequence)
  {
    hide Step, Inv, NothingAhead, AllKept, EntriesOk, Aged, SentEvent, ExactReplay, Copies;
    var s := Run(config, inputs);
    var envelope := s.log[i].message.envelope;
    var all := inputs + [input];
    RunAged(config, inputs, k, i);
    DroppedLater(inputs, input, k, envelope.sequence);
    ResumeIsAnswered(config, inputs, input);
    BufferFacts(config, inputs);
    assert all[k] == inputs[k] && all[|inputs|] == input;
    hide Run, Dropped;
    AgedMeans(config, inputs, k, i);
    DroppedMeans(inputs, input, k, envelope.sequence);
    RepeatedIsLive(s, Step(s, input), input, i, inputs[k].oracle.clockMs, Dropped(inputs, k, envelope.sequence));
  }

  lemma AgedMeans(config: Config, inputs: seq<Input>, k: nat, i: nat)
    requires i < |Run(config, inputs).log| && IsLedgerEntry(Run(config, inputs).log[i]) && k < |inputs|
    requires Aged(config, inputs, k, i)
    ensures var q := Run(config, inputs).log[i].message.envelope.sequence;
            KeptOr(Run(config, inputs).tasks, q, inputs[k].oracle.clockMs, Dropped(inputs, k, q))
  {
  }

  lemma DroppedMeans(inputs: seq<Input>, input: Input, k: nat, q: nat)
    requires k < |inputs|
    ensures Dropped(inputs + [input], k, q) <==> !forall j: nat :: j <= |inputs| ==> !Expires(inputs + [input], k, j, q)
  {
  }

  lemma RepeatedIsLive(s: SessionState, after: SessionState, input: Input, i: nat, clockMs: nat, dropped: bool)
    requires i < |s.log| && IsLedgerEntry(s.log[i]) && input.stimulus.ResumeAsked?
    requires s.log[i].message.envelope.sequence > input.stimulus.lastSeen
    requires KeptOr(s.tasks, s.log[i].message.envelope.sequence, clockMs, dropped)
    requires exists replay: seq<Envelope>, pong: Envelope ::
               && ExactReplay(s, input.stimulus.lastSeen, input.oracle.clockMs, replay) && pong.event == Pong
               && after.log == s.log + Copies(replay) + [ToClient(Control(pong))]
    ensures Written(s, after, ToClient(RawText(s.log[i].message.envelope, true))) <==>
              !dropped && input.oracle.clockMs <= clockMs + 30_000
  {
    var envelope := s.log[i].message.envelope;
    var replay: seq<Envelope>, pong: Envelope :|
      && ExactReplay(s, input.stimulus.lastSeen, input.oracle.clockMs, replay) && pong.event == Pong
      && after.log == s.log + Copies(replay) + [ToClient(Control(pong))];
    var copy := ToClient(RawText(envelope, true));
    assert s.log[i] == ToClient(RawText(envelope, false));
    assert envelope in replay <==> !dropped && input.oracle.clockMs <= clockMs + 30_000;
    hide ExactReplay;
    CopyAmong(replay, envelope);
    assert after.log[|s.log|..] == Copies(replay) + [ToClient(Control(pong))];
    assert copy in after.log[|s.log|..] <==> copy in Copies(replay);
  }

  lemma CopyAmong(replay: seq<Envelope>, envelope: Envelope)
    ensures ToClient(RawText(envelope, true)) in Copies(replay) <==> envelope in replay
  {
    if envelope in replay {
      var j :| 0 <= j < |replay| && replay[j] == envelope;
      assert Copies(replay)[j] == ToClient(RawText(envelope, true));
    }
  }
}
