// Which tasks a step resolves, how, and what it says of them; deadlines over whole runs.
module Resolutions {
  import opened Protocol
  import opened TaskLedger
  import opened Session
  import opened WireInvariant
  import opened LedgerInvariant
  import opened SessionInvariant
  import opened SessionSteps
  import opened SessionTheorems
  import opened Egress
  import opened Gate

  // ---------- one batch of outcomes ----------

  // The entry reports this of a task with this record, at this time.
  predicate Tells(e: Entry, timeUs: nat, record: TaskRecord, id: Id, result: TaskResult, error: ErrorCode) {
    IsOutcome(e) && e.message.envelope.mediaTimeUs == timeUs && OutcomeOf(e).taskId == id &&
    OutcomeOf(e).result == result && OutcomeOf(e).error == error && Summed(OutcomeOf(e), record.intent)
  }

  // The summary names the intent, says what became of the task, and counts its evidence.
  predicate Summed(o: TaskOutcome, intent: string) {
    && o.summary.intent == intent
    && (o.summary.TimedOut? <==> o.error.DeadlineElapsed?) && (o.summary.CancelledTask? <==> o.error.ClientCancelled?)
    && (o.summary.NoEvidence? ==> o.evidenceIds == [])
    && (o.summary.WithEvidence? ==> o.summary.count == |o.evidenceIds| > 0)
  }

  // An active task is resolved with this result, and the client is told so.
  ghost predicate ResolvedAs(s: SessionState, after: SessionState, timeUs: nat, id: Id, result: TaskResult,
                             error: ErrorCode)
    requires id in s.tasks.active
  {
    && id !in after.tasks.active && id in after.tasks.completed && after.tasks.completed[id] == result
    && exists i :: |s.log| <= i < |after.log| && Tells(after.log[i], timeUs, s.tasks.active[id], id, result, error)
  }

  // A task goes on as it was asked for.
  predicate GoesOn(t: TaskState, after: TaskState, id: Id)
    requires id in t.active
  {
    id in after.active && after.active[id].intent == t.active[id].intent &&
    after.active[id].deadlineMs == t.active[id].deadlineMs && after.active[id].generation == t.active[id].generation
  }

  predicate Carries(e: Entry, timeUs: nat, o: TaskOutcome) {
    IsOutcome(e) && OutcomeOf(e) == o && e.message.envelope.mediaTimeUs == timeUs
  }

  lemma {:induction false} OutcomesAre(s: SessionState, timeUs: nat, outcomes: seq<TaskOutcome>, clockMs: nat)
    ensures var after := OutcomesSent(s, timeUs, outcomes, clockMs);
            && |after.log| == |s.log| + |outcomes| && s.log <= after.log
            && after.tasks.active == s.tasks.active && after.tasks.completed == s.tasks.completed
            && forall j :: 0 <= j < |outcomes| ==> Carries(after.log[|s.log| + j], timeUs, outcomes[j])
  {
    if outcomes != [] {
      var last := |outcomes| - 1;
      OutcomesAre(s, timeUs, outcomes[..last], clockMs);
      var t := OutcomesSent(s, timeUs, outcomes[..last], clockMs);
      var after := OutcomesSent(s, timeUs, outcomes, clockMs);
      assert after == SentAndBuffered(t, timeUs, TaskOutcomeEvent(outcomes[last]), clockMs);
      assert after.log == t.log + [after.log[|t.log|]] && Carries(after.log[|t.log|], timeUs, outcomes[last]);
      hide OutcomesSent, Carries;
      forall j | 0 <= j < |outcomes|
        ensures Carries(after.log[|s.log| + j], timeUs, outcomes[j])
      {
        if j < last {
          assert outcomes[..last][j] == outcomes[j];
          assert after.log[|s.log| + j] == t.log[|s.log| + j];
        }
      }
    }
  }

  // The enumerated tasks are resolved, each with its outcome, and no others.
  lemma BatchResolves(s: SessionState, ids: seq<Id>, result: TaskResult, outcomes: seq<TaskOutcome>, timeUs: nat,
                      clockMs: nat, id: Id)
    requires |outcomes| == |ids| && id in s.tasks.active
    requires forall i :: 0 <= i < |ids| ==>
               ids[i] in s.tasks.active && outcomes[i].taskId == ids[i] && outcomes[i].result == result &&
               Summed(outcomes[i], s.tasks.active[ids[i]].intent)
    ensures var after := OutcomesSent(s.(tasks := Resolved(s.tasks, ids, result)), timeUs, outcomes, clockMs);
            if id in ids
            then exists i :: 0 <= i < |ids| && ids[i] == id &&
                   ResolvedAs(s, after, timeUs, id, result, outcomes[i].error)
            else id in after.tasks.active && after.tasks.active[id] == s.tasks.active[id]
  {
    var mid := s.(tasks := Resolved(s.tasks, ids, result));
    var after := OutcomesSent(mid, timeUs, outcomes, clockMs);
    OutcomesAre(mid, timeUs, outcomes, clockMs);
    hide OutcomesSent, Resolved;
    if id in ids {
      ResolvedMovesTask(s.tasks, ids, result, id);
      var i :| 0 <= i < |ids| && ids[i] == id;
      assert Carries(after.log[|s.log| + i], timeUs, outcomes[i]);
      assert Tells(after.log[|s.log| + i], timeUs, s.tasks.active[id], id, result, outcomes[i].error);
      assert ResolvedAs(s, after, timeUs, id, result, outcomes[i].error);
    } else {
      ResolvedKeepsTask(s.tasks, ids, result, id);
    }
  }

  // Nothing that was neither active nor completed becomes completed.
  ghost predicate NoneAppears(t: TaskState, after: TaskState) {
    forall id :: id in after.completed ==> id in t.completed || id in t.active
  }

  lemma {:induction false} ResolvedAppears(t: TaskState, ids: seq<Id>, result: TaskResult)
    ensures NoneAppears(t, Resolved(t, ids, result))
  {
    if ids != [] {
      ResolvedAppears(t, ids[..|ids| - 1], result);
      ResolvedAdmitsNone(t, ids[..|ids| - 1], result);
    }
  }

  // ---------- elapsed deadlines ----------

  lemma DeadlinesResolve(s: SessionState, timeUs: nat, order: seq<Id>, clockMs: nat, id: Id)
    requires id in s.tasks.active
    ensures var after := DeadlinesEnforced(s, timeUs, order, clockMs);
            var d := s.tasks.active[id].deadlineMs;
            if d <= timeUs / 1000 then ResolvedAs(s, after, timeUs, id, Failure, DeadlineElapsed(d))
            else id in after.tasks.active && after.tasks.active[id] == s.tasks.active[id]
  {
    var expired := Expired(s.tasks, timeUs / 1000);
    var ids := Arrange(order, expired);
    var outcomes := TimedOutOutcomes(s.tasks, ids);
    assert id in ids <==> s.tasks.active[id].deadlineMs <= timeUs / 1000;
    assert forall i :: 0 <= i < |ids| ==> ids[i] in ids;
    assert forall i :: 0 <= i < |ids| ==> outcomes[i] == TimedOutOutcome(s.tasks, ids[i]);
    BatchResolves(s, ids, Failure, outcomes, timeUs, clockMs, id);
    hide Resolved, OutcomesSent, ResolvedAs;
  }

  // An entry added while the deadlines are enforced is the outcome of a task whose deadline is over.
  lemma TimeoutsAre(s: SessionState, timeUs: nat, order: seq<Id>, clockMs: nat, i: nat)
    requires |s.log| <= i < |DeadlinesEnforced(s, timeUs, order, clockMs).log|
    ensures var e := DeadlinesEnforced(s, timeUs, order, clockMs).log[i];
            && IsOutcome(e) && OutcomeOf(e).taskId in s.tasks.active && e.message.envelope.mediaTimeUs == timeUs
            && var d := s.tasks.active[OutcomeOf(e).taskId].deadlineMs;
               OutcomeOf(e).error == DeadlineElapsed(d) && d <= timeUs / 1000
  {
    var ids := Arrange(order, Expired(s.tasks, timeUs / 1000));
    var outcomes := TimedOutOutcomes(s.tasks, ids);
    var mid := s.(tasks := Resolved(s.tasks, ids, Failure));
    OutcomesAre(mid, timeUs, outcomes, clockMs);
    var j := i - |s.log|;
    assert ids[j] in ids;
    assert outcomes[j] == TimedOutOutcome(s.tasks, ids[j]);
    assert Carries(OutcomesSent(mid, timeUs, outcomes, clockMs).log[|s.log| + j], timeUs, outcomes[j]);
  }

  lemma CheckedResolves(s: SessionState, offsetUs: nat, output: ProviderOutput, o: Oracle, id: Id)
    requires s.active.Some? && id in s.tasks.active
    ensures var after, timeUs := Checked(s, offsetUs, output, o), MediaTime(s, offsetUs);
            var d := s.tasks.active[id].deadlineMs;
            if d <= timeUs / 1000 then ResolvedAs(s, after, timeUs, id, Failure, DeadlineElapsed(d))
            else id in after.tasks.active && after.tasks.active[id] == s.tasks.active[id]
  {
    var (latency, marks) := Observe(s.active.value.latency, output);
    var timeUs := MediaTime(s, offsetUs);
    var observed := s.(active := Some(s.active.value.(latency := latency)));
    var marked := MarksSent(observed, timeUs, s.active.value.id, marks);
    MarksSameTasks(observed, timeUs, s.active.value.id, marks);
    MarksAdd(observed, timeUs, s.active.value.id, marks);
    DeadlinesResolve(marked, timeUs, o.expiryOrder, o.clockMs, id);
    hide Observe, MarksSent, DeadlinesEnforced, KindOf, NoneAdmitted;
    var d := s.tasks.active[id].deadlineMs;
    if d <= timeUs / 1000 {
      ResolvedSince(s, marked, Checked(s, offsetUs, output, o), timeUs, id, Failure, DeadlineElapsed(d));
    }
  }

  lemma ResolvedSince(s: SessionState, t: SessionState, after: SessionState, timeUs: nat, id: Id, result: TaskResult,
                      error: ErrorCode)
    requires id in s.tasks.active && id in t.tasks.active && t.tasks.active[id].intent == s.tasks.active[id].intent
    requires ResolvedAs(t, after, timeUs, id, result, error) && |s.log| <= |t.log|
    ensures ResolvedAs(s, after, timeUs, id, result, error)
  {
    var i :| |t.log| <= i < |after.log| && Tells(after.log[i], timeUs, t.tasks.active[id], id, result, error);
    assert Tells(after.log[i], timeUs, s.tasks.active[id], id, result, error);
  }

  lemma ResolvedStays(s: SessionState, t: SessionState, after: SessionState, timeUs: nat, id: Id, result: TaskResult,
                      error: ErrorCode)
    requires id in s.tasks.active && ResolvedAs(s, t, timeUs, id, result, error) && t.log <= after.log
    requires id !in after.tasks.active && id in after.tasks.completed && after.tasks.completed[id] == result
    ensures ResolvedAs(s, after, timeUs, id, result, error)
  {
    var i :| |s.log| <= i < |t.log| && Tells(t.log[i], timeUs, s.tasks.active[id], id, result, error);
    assert after.log[i] == t.log[i];
  }

  // ---------- what follows the check ----------

  // Evidence is attached, and nothing else changes about the tasks.
  ghost predicate SameTasksHeld(t: TaskState, after: TaskState) {
    && after.completed == t.completed && after.active.Keys == t.active.Keys
    && forall id :: id in t.active ==> GoesOn(t, after, id)
  }

  lemma {:induction false} AttachedSameTasks(s: SessionState, ids: seq<Id>, kind: EvidenceKind, evidence: Id,
                                             timeUs: nat, clockMs: nat)
    ensures SameTasksHeld(s.tasks, AttachedToAll(s, ids, kind, evidence, timeUs, clockMs).tasks)
  {
    if ids != [] {
      var t := AttachedToAll(s, ids[..|ids| - 1], kind, evidence, timeUs, clockMs);
      AttachedSameTasks(s, ids[..|ids| - 1], kind, evidence, timeUs, clockMs);
      OneSameTasks(t, ids[|ids| - 1], kind, evidence, timeUs, clockMs);
      hide AttachedTo;
    }
  }

  lemma AttachSameTasks(t: TaskState, id: Id, kind: EvidenceKind, evidence: Id)
    ensures SameTasksHeld(t, EvidenceAttached(t, id, kind, evidence))
  {
  }

  lemma LinkSameTasks(s: SessionState, timeUs: nat, link: EvidenceLink, clockMs: nat)
    ensures var after := LinkSent(s, timeUs, link, clockMs).tasks;
            after.active == s.tasks.active && after.completed == s.tasks.completed
  {
  }

  lemma OneSameTasks(s: SessionState, id: Id, kind: EvidenceKind, evidence: Id, timeUs: nat, clockMs: nat)
    ensures SameTasksHeld(s.tasks, AttachedTo(s, id, kind, evidence, timeUs, clockMs).tasks)
  {
    var attached := s.(tasks := EvidenceAttached(s.tasks, id, kind, evidence));
    AttachSameTasks(s.tasks, id, kind, evidence);
    hide EvidenceAttached, LinkSent, Attaches;
    LinkSameTasks(attached, timeUs, EvidenceLink(id, evidence, TaskProof, 1.0), clockMs);
  }

  lemma CollectedSameTasks(s: SessionState, g: Id, emitted: Option<Emitted>, timeUs: nat, order: seq<Id>, clockMs: nat)
    ensures SameTasksHeld(s.tasks, EvidenceCollected(s, g, emitted, timeUs, order, clockMs).tasks)
  {
    if emitted.Some? && Classify(emitted.value.event).Some? {
      AttachedSameTasks(s, Arrange(order, BoundTo(s.tasks, g)), Classify(emitted.value.event).value,
                        emitted.value.eventId, timeUs, clockMs);
    }
  }

  lemma FinishResolves(s: SessionState, g: Id, timeUs: nat, order: seq<Id>, clockMs: nat, id: Id)
    requires id in s.tasks.active
    ensures var after := Finished(s, g, timeUs, order, clockMs);
            if s.tasks.active[id].generation == Some(g) then ResolvedAs(s, after, timeUs, id, Success, NoError)
            else id in after.tasks.active && after.tasks.active[id] == s.tasks.active[id]
  {
    var ids := Arrange(order, BoundTo(s.tasks, g));
    var outcomes := CompletedOutcomes(s.tasks, ids);
    var ended := s.(active := None);
    assert id in ids <==> s.tasks.active[id].generation == Some(g);
    assert forall i :: 0 <= i < |ids| ==> ids[i] in ids;
    assert forall i :: 0 <= i < |ids| ==> outcomes[i] == CompletedOutcome(s.tasks, ids[i]);
    BatchResolves(ended, ids, Success, outcomes, timeUs, clockMs, id);
    var after := Finished(s, g, timeUs, order, clockMs);
    hide Resolved, OutcomesSent;
    if id in ids {
      ResolvedSince(s, ended, after, timeUs, id, Success, NoError);
    }
  }

  lemma FinishKeepsCompleted(s: SessionState, g: Id, timeUs: nat, order: seq<Id>, clockMs: nat, id: Id)
    requires id !in s.tasks.active
    ensures var after := Finished(s, g, timeUs, order, clockMs).tasks;
            && id !in after.active && (id in after.completed <==> id in s.tasks.completed)
            && (id in s.tasks.completed ==> after.completed[id] == s.tasks.completed[id])
  {
    var ids := Arrange(order, BoundTo(s.tasks, g));
    var outcomes := CompletedOutcomes(s.tasks, ids);
    var resolved := s.(active := None, tasks := Resolved(s.tasks, ids, Success));
    OutcomesAre(resolved, timeUs, outcomes, clockMs);
    ResolvedKeepsTask(s.tasks, ids, Success, id);
  }

  lemma EventResolves(s: SessionState, g: Id, event: Event, timeUs: nat, o: Oracle, id: Id)
    ensures var after := EventAccepted(s, g, event, timeUs, o);
            && s.log <= after.log
            && (id !in s.tasks.active ==>
                  && id !in after.tasks.active && (id in after.tasks.completed <==> id in s.tasks.completed)
                  && (id in s.tasks.completed ==> after.tasks.completed[id] == s.tasks.completed[id]))
            && (id in s.tasks.active ==>
                  if event == ProviderState(Complete) && s.tasks.active[id].generation == Some(g)
                  then ResolvedAs(s, after, timeUs, id, Success, NoError) else GoesOn(s.tasks, after.tasks, id))
  {
    var (sent, emitted) := EventEmitted(s, event, g, timeUs, o.verdict);
    var collected := EvidenceCollected(sent, g, emitted, timeUs, o.evidenceOrder, o.clockMs);
    EmittedIs(s, event, g, timeUs, o.verdict);
    EventSays(s, g, event, timeUs, o);
    CollectedSameTasks(sent, g, emitted, timeUs, o.evidenceOrder, o.clockMs);
    CollectedAdds(sent, g, emitted, timeUs, o.evidenceOrder, o.clockMs);
    hide EventEmitted, EvidenceCollected, Finished, Due, KindOf, NoneAdmitted;
    if event == ProviderState(Complete) {
      if id in s.tasks.active {
        FinishResolves(collected, g, timeUs, o.completionOrder, o.clockMs, id);
        if s.tasks.active[id].generation == Some(g) {
          ResolvedSince(s, collected, EventAccepted(s, g, event, timeUs, o), timeUs, id, Success, NoError);
        }
      } else {
        FinishKeepsCompleted(collected, g, timeUs, o.completionOrder, o.clockMs, id);
      }
    }
  }

  // ---------- an accepted emission ----------

  // What becomes of an active task when an emission of generation `g` is accepted: past its deadline it
  // fails, whatever the emission; else the completion of its generation makes it a success; else it goes on.
  lemma AcceptedResolves(s: SessionState, input: Input, id: Id)
    requires s.open && input.stimulus.FromProvider? && IsAccepted(s, input.stimulus.emission)
    requires id in s.tasks.active
    ensures var e, after := input.stimulus.emission, Step(s, input);
            var timeUs, record := MediaTime(s, e.mediaOffsetUs), s.tasks.active[id];
            if record.deadlineMs <= timeUs / 1000
            then ResolvedAs(s, after, timeUs, id, Failure, DeadlineElapsed(record.deadlineMs))
            else if e.output == ProviderEvent(ProviderState(Complete)) && record.generation == e.generation
            then ResolvedAs(s, after, timeUs, id, Success, NoError)
            else GoesOn(s.tasks, after.tasks, id)
  {
    var e, o := input.stimulus.emission, input.oracle;
    var timeUs, g := MediaTime(s, e.mediaOffsetUs), e.generation.value;
    var checked, after := Checked(s, e.mediaOffsetUs, e.output, o), Step(s, input);
    var d := s.tasks.active[id].deadlineMs;
    StepIsAnswer(s, input);
    AcceptedIs(s, e, o);
    CheckedResolves(s, e.mediaOffsetUs, e.output, o, id);
    CheckedAdds(s, e.mediaOffsetUs, e.output, o);
    hide Step, EmissionHandled, Checked, EventAccepted, NoneAdmitted, KindOf, MediaTime, IsAccepted;
    match e.output {
      case ProviderEvent(event) =>
        EventResolves(checked, g, event, timeUs, o, id);
        if d <= timeUs / 1000 {
          ResolvedStays(s, checked, after, timeUs, id, Failure, DeadlineElapsed(d));
        } else if event == ProviderState(Complete) && s.tasks.active[id].generation == e.generation {
          ResolvedSince(s, checked, after, timeUs, id, Success, NoError);
        }
      case Audio =>
        if d <= timeUs / 1000 {
          ResolvedStays(s, checked, after, timeUs, id, Failure, DeadlineElapsed(d));
        }
    }
  }

  // So no active task is past its deadline when an emission has been accepted.
  lemma AcceptedLeavesNoneOverdue(s: SessionState, input: Input)
    requires s.open && input.stimulus.FromProvider? && IsAccepted(s, input.stimulus.emission)
    ensures var t := Step(s, input).tasks;
            forall id :: id in t.active ==>
              MediaTime(s, input.stimulus.emission.mediaOffsetUs) / 1000 < t.active[id].deadlineMs
  {
    var t := Step(s, input).tasks;
    StepAdds(s, input);
    forall id | id in t.active
      ensures MediaTime(s, input.stimulus.emission.mediaOffsetUs) / 1000 < t.active[id].deadlineMs
    {
      AcceptedResolves(s, input, id);
    }
    hide Step, Says, MediaTime;
  }

  // ---------- cancellation by the client ----------

  // A task the client cancels is resolved at once as it asks, whatever it is bound to; one that is not
  // active is left alone, and so is every other task.
  lemma CancelResolves(s: SessionState, input: Input, id: Id)
    requires s.open && input.stimulus.TaskCancelled?
    ensures var c, after := input.stimulus, Step(s, input);
            if c.id !in s.tasks.active then after == s
            else
              && ResolvedAs(s, after, c.timeUs, c.id, Cancelled, ClientCancelled(c.reason))
              && (id != c.id && id in s.tasks.active ==> id in after.tasks.active &&
                                                         after.tasks.active[id] == s.tasks.active[id])
  {
    var c, after := input.stimulus, Step(s, input);
    if c.id in s.tasks.active {
      assert Tells(after.log[|s.log|], c.timeUs, s.tasks.active[c.id], c.id, Cancelled, ClientCancelled(c.reason));
    }
  }

  // In a reachable state, nothing but an accepted emission or a cancellation resolves a task.
  lemma OnlyTheseResolve(s: SessionState, input: Input, id: Id)
    requires Inv(s, map[]) && id !in s.tasks.completed && id in Step(s, input).tasks.completed
    ensures id in s.tasks.active
    ensures if input.stimulus.TaskCancelled? then input.stimulus.id == id
            else input.stimulus.FromProvider? && IsAccepted(s, input.stimulus.emission)
  {
    var after := Step(s, input);
    StepOk(s, input, 0);
    StepAdds(s, input);
    var i := OutcomeWritten(s, after, id);
    if input.stimulus.TaskCancelled? {
      hide Inv;
      if s.open {
        CancelCompletes(s, input, id);
      }
    } else {
      hide Inv, Step;
      assert KindOf(after.log[i]) in StepKinds(input.stimulus);
      OutcomeIsAnswer(s, input, i);
      AcceptedCompletes(s, input, id);
    }
  }

  lemma OutcomeIsAnswer(s: SessionState, input: Input, i: nat)
    requires |s.log| <= i < |Step(s, input).log|
    requires KindOf(Step(s, input).log[i]) == Timeout ||
             (KindOf(Step(s, input).log[i]) == Verdict && !input.stimulus.TaskCancelled?)
    ensures s.open && input.stimulus.FromProvider? && IsAccepted(s, input.stimulus.emission)
  {
    StepAdds(s, input);
    hide EmissionHandled, IsAccepted;
    if !IsAccepted(s, input.stimulus.emission) {
      NotAcceptedIs(s, input.stimulus.emission, input.oracle);
    }
  }

  lemma AcceptedCompletes(s: SessionState, input: Input, id: Id)
    requires s.open && input.stimulus.FromProvider? && IsAccepted(s, input.stimulus.emission)
    requires id !in s.tasks.completed && id in Step(s, input).tasks.completed
    ensures id in s.tasks.active
  {
    var e, o := input.stimulus.emission, input.oracle;
    var timeUs := MediaTime(s, e.mediaOffsetUs);
    var checked := Checked(s, e.mediaOffsetUs, e.output, o);
    StepIsAnswer(s, input);
    AcceptedIs(s, e, o);
    hide Step, EmissionHandled, Checked, EventAccepted, MediaTime, IsAccepted;
    if id !in s.tasks.active {
      CheckedKeepsOthers(s, e.mediaOffsetUs, e.output, o, id);
      if e.output.ProviderEvent? {
        EventResolves(checked, e.generation.value, e.output.event, timeUs, o, id);
      }
    }
  }

  lemma CheckedKeepsOthers(s: SessionState, offsetUs: nat, output: ProviderOutput, o: Oracle, id: Id)
    requires s.active.Some? && id !in s.tasks.active
    ensures var after := Checked(s, offsetUs, output, o).tasks;
            id !in after.active && (id in after.completed <==> id in s.tasks.completed)
  {
    var (latency, marks) := Observe(s.active.value.latency, output);
    var timeUs := MediaTime(s, offsetUs);
    var observed := s.(active := Some(s.active.value.(latency := latency)));
    var marked := MarksSent(observed, timeUs, s.active.value.id, marks);
    var ids := Arrange(o.expiryOrder, Expired(marked.tasks, timeUs / 1000));
    MarksSameTasks(observed, timeUs, s.active.value.id, marks);
    ResolvedKeepsTask(marked.tasks, ids, Failure, id);
    OutcomesAre(marked.(tasks := Resolved(marked.tasks, ids, Failure)), timeUs, TimedOutOutcomes(marked.tasks, ids),
                o.clockMs);
    hide Observe, MarksSent, OutcomesSent, Resolved;
  }

  lemma CancelCompletes(s: SessionState, input: Input, id: Id)
    requires s.open && input.stimulus.TaskCancelled?
    requires id !in s.tasks.completed && id in Step(s, input).tasks.completed
    ensures id == input.stimulus.id && id in s.tasks.active
  {
  }

  lemma OutcomeWritten(s: SessionState, after: SessionState, id: Id) returns (i: nat)
    requires Inv(s, map[]) && Inv(after, map[]) && s.log <= after.log
    requires id !in s.tasks.completed && id in after.tasks.completed
    ensures |s.log| <= i < |after.log| && KindOf(after.log[i]) in {Timeout, Verdict}
  {
    hide Core, ActiveOk, CompletedOk, LinksOk, AcksOk, ProvenanceOk;
    assert OutcomeSent(after.log, id);
    i :| 0 <= i < |after.log| && IsOutcomeFor(after.log[i], id);
    forall k | 0 <= k < |s.log| && IsOutcome(after.log[k])
      ensures OutcomeOf(after.log[k]).taskId in s.tasks.completed
    {
      assert s.log[k] == after.log[k];
    }
  }

  // ---------- runs ----------

  // Each active task's deadline is the one it was acknowledged with.
  ghost predicate DeadlinesAcked(s: SessionState) {
    forall id :: id in s.tasks.active ==> AckedWith(s.log, id, s.tasks.active[id].deadlineMs)
  }

  ghost predicate AckedWith(log: seq<Entry>, id: Id, deadlineMs: nat) {
    exists i :: 0 <= i < |log| && IsAckFor(log[i], id) && log[i].message.envelope.event.ack.deadlineMs == deadlineMs
  }

  lemma AckedStays(log: seq<Entry>, longer: seq<Entry>, id: Id, deadlineMs: nat)
    requires AckedWith(log, id, deadlineMs) && log <= longer
    ensures AckedWith(longer, id, deadlineMs)
  {
    var i :| 0 <= i < |log| && IsAckFor(log[i], id) && log[i].message.envelope.event.ack.deadlineMs == deadlineMs;
    assert longer[i] == log[i];
  }

  lemma StepAcked(s: SessionState, input: Input)
    requires DeadlinesAcked(s)
    ensures DeadlinesAcked(Step(s, input))
  {
    var after := Step(s, input);
    StepAdds(s, input);
    if s.open && input.stimulus.TaskAsked? {
      AskedAcked(s, input);
    }
    hide Step, AckedWith;
    forall id | id in after.tasks.active
      ensures AckedWith(after.log, id, after.tasks.active[id].deadlineMs)
    {
      if id in s.tasks.active && after.tasks.active[id].deadlineMs == s.tasks.active[id].deadlineMs {
        AckedStays(s.log, after.log, id, s.tasks.active[id].deadlineMs);
      }
    }
  }

  lemma AskedAcked(s: SessionState, input: Input)
    requires s.open && input.stimulus.TaskAsked?
    ensures var after := Step(s, input);
            forall id :: id in after.tasks.active ==>
              (id in s.tasks.active && after.tasks.active[id].deadlineMs == s.tasks.active[id].deadlineMs) ||
                AckedWith(after.log, id, after.tasks.active[id].deadlineMs)
  {
    var after, request := Step(s, input), input.stimulus.request;
    if !Rejects(s.tasks, request) {
      var deadline := DeadlineFor(request, input.stimulus.timeUs / 1000, s.config.defaultDeadlineMs);
      var e := after.log[|s.log|];
      assert IsAckFor(e, request.taskId) && e.message.envelope.event.ack.deadlineMs == deadline;
      assert AckedWith(after.log, request.taskId, deadline);
      assert after.tasks.active.Keys == s.tasks.active.Keys + {request.taskId};
      assert after.tasks.active[request.taskId].deadlineMs == deadline;
    }
  }

  lemma {:induction false} RunAcked(config: Config, inputs: seq<Input>)
    ensures DeadlinesAcked(Run(config, inputs))
  {
    hide DeadlinesAcked, Step;
    if inputs == [] {
      NothingActiveYet(config);
    } else {
      RunAcked(config, inputs[..|inputs| - 1]);
      StepAcked(Run(config, inputs[..|inputs| - 1]), inputs[|inputs| - 1]);
    }
  }

  lemma NothingActiveYet(config: Config)
    ensures DeadlinesAcked(Run(config, []))
  {
    assert Run(config, []).tasks == EMPTY_LEDGER;
  }

  lemma StepTimesOut(s: SessionState, input: Input, i: nat)
    requires |s.log| <= i < |Step(s, input).log| && KindOf(Step(s, input).log[i]) == Timeout
    ensures var e := Step(s, input).log[i];
            && IsOutcome(e) && OutcomeOf(e).taskId in s.tasks.active
            && var d := s.tasks.active[OutcomeOf(e).taskId].deadlineMs;
               OutcomeOf(e).error == DeadlineElapsed(d) && d <= e.message.envelope.mediaTimeUs / 1000
  {
    OutcomeIsAnswer(s, input, i);
    StepIsAnswer(s, input);
    hide Step, EmissionHandled;
    AcceptedTimesOut(s, input.stimulus.emission, input.oracle, i);
  }

  lemma AcceptedTimesOut(s: SessionState, e: Emission, o: Oracle, i: nat)
    requires IsAccepted(s, e)
    requires |s.log| <= i < |EmissionHandled(s, e, o).log| && KindOf(EmissionHandled(s, e, o).log[i]) == Timeout
    ensures var entry := EmissionHandled(s, e, o).log[i];
            && IsOutcome(entry) && OutcomeOf(entry).taskId in s.tasks.active
            && var d := s.tasks.active[OutcomeOf(entry).taskId].deadlineMs;
               OutcomeOf(entry).error == DeadlineElapsed(d) && d <= entry.message.envelope.mediaTimeUs / 1000
  {
    var checked, after := Checked(s, e.mediaOffsetUs, e.output, o), EmissionHandled(s, e, o);
    AcceptedIs(s, e, o);
    hide EmissionHandled, EventAccepted, Checked, NoneAdmitted, MediaTime, KindOf;
    AcceptedSays(s, e, o);
    hide Says;
    KindComesBefore(checked, after, EventKinds() + {Sound}, i);
    CheckedTimesOut(s, e.mediaOffsetUs, e.output, o, i);
  }

  lemma AcceptedSays(s: SessionState, e: Emission, o: Oracle)
    requires IsAccepted(s, e)
    ensures Says(Checked(s, e.mediaOffsetUs, e.output, o), EmissionHandled(s, e, o), EventKinds() + {Sound})
  {
    var checked := Checked(s, e.mediaOffsetUs, e.output, o);
    var timeUs, g := MediaTime(s, e.mediaOffsetUs), e.generation.value;
    AcceptedIs(s, e, o);
    hide EmissionHandled, EventAccepted, Checked, NoneAdmitted, MediaTime, KindOf;
    match e.output {
      case ProviderEvent(event) => EventAdds(checked, g, event, timeUs, o);
      case Audio => MediaAdds(checked, timeUs, g, o.mediaFull);
    }
  }

  lemma CheckedTimesOut(s: SessionState, offsetUs: nat, output: ProviderOutput, o: Oracle, i: nat)
    requires s.active.Some? && |s.log| <= i < |Checked(s, offsetUs, output, o).log|
    requires KindOf(Checked(s, offsetUs, output, o).log[i]) == Timeout
    ensures var entry := Checked(s, offsetUs, output, o).log[i];
            && IsOutcome(entry) && OutcomeOf(entry).taskId in s.tasks.active
            && var d := s.tasks.active[OutcomeOf(entry).taskId].deadlineMs;
               OutcomeOf(entry).error == DeadlineElapsed(d) && d <= entry.message.envelope.mediaTimeUs / 1000
  {
    var (latency, marks) := Observe(s.active.value.latency, output);
    var timeUs := MediaTime(s, offsetUs);
    var observed := s.(active := Some(s.active.value.(latency := latency)));
    var marked := MarksSent(observed, timeUs, s.active.value.id, marks);
    var after := Checked(s, offsetUs, output, o);
    MarksSameTasks(observed, timeUs, s.active.value.id, marks);
    MarksAdd(observed, timeUs, s.active.value.id, marks);
    TimeoutsAdd(marked, timeUs, o.expiryOrder, o.clockMs);
    hide Observe, MarksSent, DeadlinesEnforced, NoneAdmitted, KindOf;
    KindComesAfter(observed, marked, after, {Mark}, i);
    TimeoutsAre(marked, timeUs, o.expiryOrder, o.clockMs, i);
  }

  // In every run, an outcome that says a deadline has elapsed names the deadline the task was
  // acknowledged with, and is sent at a media time at or past it.
  lemma TimeoutsAreDue(config: Config, inputs: seq<Input>, i: nat)
    requires i < |Run(config, inputs).log| && IsOutcome(Run(config, inputs).log[i])
    requires OutcomeOf(Run(config, inputs).log[i]).error.DeadlineElapsed?
    ensures var log := Run(config, inputs).log;
            var d := OutcomeOf(log[i]).error.deadlineMs;
            && d <= log[i].message.envelope.mediaTimeUs / 1000
            && (exists j :: 0 <= j < i && IsAckFor(log[j], OutcomeOf(log[i]).taskId))
            && forall j :: 0 <= j < |log| && IsAckFor(log[j], OutcomeOf(log[i]).taskId) ==>
                 log[j].message.envelope.event.ack.deadlineMs == d
  {
    GreetingIsNoOutcome(config, inputs);
    var k := StepOfEntry(config, inputs, i);
    var s := Run(config, inputs[..k]);
    var after := Step(s, inputs[k]);
    var log, id := Run(config, inputs).log, OutcomeOf(Run(config, inputs).log[i]).taskId;
    assert s.log <= log by {
      StepAdds(s, inputs[k]);
    }
    RunAcked(config, inputs[..k]);
    StepTimesOut(s, inputs[k], i);
    hide Step, Run, DeadlinesAcked, Says, KindOf, NoneAdmitted;
    var j := AckWitness(s, log, id);
    OnlyAck(config, inputs, id, j);
  }

  lemma AckWitness(s: SessionState, log: seq<Entry>, id: Id) returns (j: nat)
    requires DeadlinesAcked(s) && id in s.tasks.active && s.log <= log
    ensures j < |s.log| && IsAckFor(log[j], id)
    ensures log[j].message.envelope.event.ack.deadlineMs == s.tasks.active[id].deadlineMs
  {
    var d := s.tasks.active[id].deadlineMs;
    assert AckedWith(s.log, id, d);
    var k: nat :| k < |s.log| && IsAckFor(s.log[k], id) && s.log[k].message.envelope.event.ack.deadlineMs == d;
    assert log[k] == s.log[k];
    j := k;
  }

  lemma OnlyAck(config: Config, inputs: seq<Input>, id: Id, j: nat)
    requires j < |Run(config, inputs).log| && IsAckFor(Run(config, inputs).log[j], id)
    ensures forall k :: 0 <= k < |Run(config, inputs).log| && IsAckFor(Run(config, inputs).log[k], id) ==> k == j
  {
    EveryTaskExactlyOnce(config, inputs, id);
    hide Run;
  }

  lemma {:induction false} GreetingIsNoOutcome(config: Config, inputs: seq<Input>)
    ensures var log := Run(config, inputs).log; 0 < |log| && !IsOutcome(log[0])
  {
    if inputs != [] {
      var front := inputs[..|inputs| - 1];
      GreetingIsNoOutcome(config, front);
      StepAdds(Run(config, front), inputs[|inputs| - 1]);
      hide Step, IsOutcome;
      assert Run(config, inputs).log[0] == Run(config, inputs).log[..|Run(config, front).log|][0];
    }
  }
}
