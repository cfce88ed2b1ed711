// What stays true of the task ledger against the wire: each admitted task is either active or
// completed and was acknowledged once; each completed task has exactly one outcome on the wire
// (or still owed to it); all cited evidence was sent under the generation the task was bound to.
module LedgerInvariant {
  import opened Protocol
  import opened TaskLedger
  import opened Session
  import opened WireInvariant

  // ---------- ledger entries on the wire ----------

  predicate IsLedgerEntry(e: Entry) {
    e.ToClient? && e.message.RawText? && !e.message.replay
  }

  predicate IsOutcome(e: Entry) {
    IsLedgerEntry(e) && e.message.envelope.event.TaskOutcomeEvent?
  }

  function OutcomeOf(e: Entry): TaskOutcome
    requires IsOutcome(e)
  {
    e.message.envelope.event.outcome
  }

  predicate IsOutcomeFor(e: Entry, id: Id) {
    IsOutcome(e) && OutcomeOf(e).taskId == id
  }

  predicate IsAck(e: Entry) {
    IsLedgerEntry(e) && e.message.envelope.event.TaskAcknowledgedEvent?
  }

  predicate IsAckFor(e: Entry, id: Id) {
    IsAck(e) && e.message.envelope.event.ack.taskId == id
  }

  // An envelope with event id `id` was sent under generation `g`.
  ghost predicate OnWire(log: seq<Entry>, id: Id, g: Id) {
    exists i :: 0 <= i < |log| && Enveloped(log[i]) && EventIdOf(log[i]) == id && Tag(log[i]) == Some(g)
  }

  // The envelope with event id `id` is the completion of generation `g`.
  ghost predicate CompletionOnWire(log: seq<Entry>, id: Id, g: Id) {
    exists i :: 0 <= i < |log| && IsCompletion(log[i], g) && log[i].message.envelope.eventId == id
  }

  ghost predicate AckBefore(log: seq<Entry>, to: nat, id: Id)
    requires to <= |log|
  {
    exists i :: 0 <= i < to && IsAckFor(log[i], id)
  }

  ghost predicate OutcomeSent(log: seq<Entry>, id: Id) {
    exists i :: 0 <= i < |log| && IsOutcomeFor(log[i], id)
  }

  // ---------- the invariant ----------

  ghost predicate InBuckets(record: TaskRecord, evidence: Id) {
    exists kind :: kind in record.collected && evidence in record.collected[kind]
  }

  ghost predicate EvidenceOk(log: seq<Entry>, evidence: seq<Id>, g: Option<Id>) {
    NoDuplicates(evidence) && forall e :: e in evidence ==> g.Some? && OnWire(log, e, g.value)
  }

  ghost predicate SuccessOk(log: seq<Entry>, evidence: seq<Id>, g: Option<Id>) {
    g.Some? && exists e :: e in evidence && CompletionOnWire(log, e, g.value)
  }

  ghost predicate RecordOk(t: TaskState, log: seq<Entry>, id: Id, record: TaskRecord) {
    && record.taskId == id
    && EvidenceOk(log, EvidenceFor(t, id), record.generation)
    && forall e :: e in EvidenceFor(t, id) <==> InBuckets(record, e)
  }

  ghost predicate ActiveOk(t: TaskState, log: seq<Entry>) {
    forall id :: id in t.active ==> id !in t.completed && RecordOk(t, log, id, t.active[id])
  }

  ghost predicate ResultOk(log: seq<Entry>, evidence: seq<Id>, result: TaskResult, binding: Option<Id>) {
    EvidenceOk(log, evidence, binding) && (result == Success ==> SuccessOk(log, evidence, binding))
  }

  ghost predicate CompletedOk(t: TaskState, log: seq<Entry>) {
    && t.bindings.Keys == t.completed.Keys
    && forall id :: id in t.completed ==> ResultOk(log, EvidenceFor(t, id), t.completed[id], t.bindings[id])
  }

  // A link is listed under its source exactly when it is listed under its target.
  ghost predicate Mirrored(t: TaskState) {
    && (forall id, link :: link in LinksOf(t.linksBySource, id) ==>
          link.source == id && link in LinksOf(t.linksByTarget, link.target))
    && (forall id, link :: link in LinksOf(t.linksByTarget, id) ==>
          link.target == id && link in LinksOf(t.linksBySource, link.source))
  }

  ghost predicate LinksOk(t: TaskState) {
    && Mirrored(t)
    && forall id :: id in t.linksBySource ==>
         (id in t.active || id in t.completed) &&
         forall link :: link in t.linksBySource[id] ==> link == EvidenceLink(id, link.target, TaskProof, 1.0)
  }

  predicate OutcomeOk(t: TaskState, o: TaskOutcome) {
    && o.taskId in t.completed
    && o.result == t.completed[o.taskId]
    && o.evidenceIds == EvidenceFor(t, o.taskId)
    && !o.summary.NoEvidence?
  }

  // `owed` are the outcomes the ledger has decided and not yet handed to the wire.
  ghost predicate OutcomesOk(t: TaskState, log: seq<Entry>, owed: map<Id, TaskOutcome>) {
    && (forall i :: 0 <= i < |log| && IsOutcome(log[i]) ==>
          OutcomeOk(t, OutcomeOf(log[i])) && OutcomeOf(log[i]).taskId !in owed)
    && (forall i, j :: 0 <= i < j < |log| && IsOutcome(log[i]) && IsOutcome(log[j]) ==>
          OutcomeOf(log[i]).taskId != OutcomeOf(log[j]).taskId)
    && (forall id :: id in t.completed ==> id in owed || OutcomeSent(log, id))
    && (forall id :: id in owed ==> owed[id].taskId == id && OutcomeOk(t, owed[id]))
  }

  ghost predicate AcksOk(t: TaskState, log: seq<Entry>) {
    && (forall i :: 0 <= i < |log| && IsAck(log[i]) ==>
          log[i].message.envelope.event.ack.taskId in t.active ||
            log[i].message.envelope.event.ack.taskId in t.completed)
    && (forall i, j :: 0 <= i < j < |log| && IsAck(log[i]) && IsAck(log[j]) ==>
          log[i].message.envelope.event.ack.taskId != log[j].message.envelope.event.ack.taskId)
    && (forall id :: id in t.active || id in t.completed ==> AckBefore(log, |log|, id))
    && (forall i :: 0 <= i < |log| && IsOutcome(log[i]) ==> AckBefore(log, i, OutcomeOf(log[i]).taskId))
  }

  // When an outcome went out, every piece of evidence it cites had been sent under the task's
  // binding, a success with the completion of that generation among it.
  ghost predicate CitesEarlier(log: seq<Entry>, i: nat, binding: Option<Id>)
    requires i < |log| && IsOutcome(log[i])
  {
    ResultOk(log[..i], OutcomeOf(log[i]).evidenceIds, OutcomeOf(log[i]).result, binding)
  }

  ghost predicate ProvenanceOk(bindings: map<Id, Option<Id>>, log: seq<Entry>) {
    forall i :: 0 <= i < |log| && IsOutcome(log[i]) ==>
      OutcomeOf(log[i]).taskId in bindings && CitesEarlier(log, i, bindings[OutcomeOf(log[i]).taskId])
  }

  ghost predicate LedgerOk(t: TaskState, log: seq<Entry>, owed: map<Id, TaskOutcome>) {
    ProvenanceOk(t.bindings, log) && ActiveOk(t, log) && CompletedOk(t, log) && LinksOk(t) &&
      OutcomesOk(t, log, owed) && AcksOk(t, log)
  }

  // ---------- growing the log ----------

  lemma OnWireStays(log: seq<Entry>, e: Entry, id: Id, g: Id)
    ensures OnWire(log, id, g) ==> OnWire(log + [e], id, g)
    ensures CompletionOnWire(log, id, g) ==> CompletionOnWire(log + [e], id, g)
  {
    var longer := log + [e];
    if OnWire(log, id, g) {
      var i :| 0 <= i < |log| && Enveloped(log[i]) && EventIdOf(log[i]) == id && Tag(log[i]) == Some(g);
      assert longer[i] == log[i];
    }
    if CompletionOnWire(log, id, g) {
      var i :| 0 <= i < |log| && IsCompletion(log[i], g) && log[i].message.envelope.eventId == id;
      assert longer[i] == log[i];
    }
  }

  lemma EvidenceStays(log: seq<Entry>, e: Entry, evidence: seq<Id>, g: Option<Id>)
    ensures EvidenceOk(log, evidence, g) ==> EvidenceOk(log + [e], evidence, g)
    ensures SuccessOk(log, evidence, g) ==> SuccessOk(log + [e], evidence, g)
  {
    if g.Some? {
      forall id ensures OnWire(log, id, g.value) ==> OnWire(log + [e], id, g.value)
        ensures CompletionOnWire(log, id, g.value) ==> CompletionOnWire(log + [e], id, g.value)
      {
        OnWireStays(log, e, id, g.value);
      }
    }
  }

  lemma ActiveStays(t: TaskState, log: seq<Entry>, e: Entry)
    requires ActiveOk(t, log)
    ensures ActiveOk(t, log + [e])
  {
    forall id | id in t.active
      ensures RecordOk(t, log + [e], id, t.active[id])
    {
      EvidenceStays(log, e, EvidenceFor(t, id), t.active[id].generation);
    }
  }

  lemma CompletedStays(t: TaskState, log: seq<Entry>, e: Entry)
    requires CompletedOk(t, log)
    ensures CompletedOk(t, log + [e])
  {
    forall id | id in t.completed
      ensures ResultOk(log + [e], EvidenceFor(t, id), t.completed[id], t.bindings[id])
    {
      EvidenceStays(log, e, EvidenceFor(t, id), t.bindings[id]);
    }
  }

  lemma OutcomeSentStays(log: seq<Entry>, e: Entry, id: Id)
    ensures OutcomeSent(log, id) ==> OutcomeSent(log + [e], id)
    ensures IsOutcomeFor(e, id) ==> OutcomeSent(log + [e], id)
  {
    var longer := log + [e];
    if OutcomeSent(log, id) {
      var i :| 0 <= i < |log| && IsOutcomeFor(log[i], id);
      assert IsOutcomeFor(longer[i], id);
    }
    if IsOutcomeFor(e, id) {
      assert IsOutcomeFor(longer[|log|], id);
    }
  }

  lemma OutcomesStay(t: TaskState, log: seq<Entry>, owed: map<Id, TaskOutcome>, e: Entry)
    requires OutcomesOk(t, log, owed) && !IsOutcome(e)
    ensures OutcomesOk(t, log + [e], owed)
  {
    forall id | id in t.completed && id !in owed
      ensures OutcomeSent(log + [e], id)
    {
      OutcomeSentStays(log, e, id);
    }
  }

  lemma AckBeforeStays(log: seq<Entry>, e: Entry, to: nat, id: Id)
    requires to <= |log|
    ensures AckBefore(log, to, id) ==> AckBefore(log + [e], to, id) && AckBefore(log + [e], |log + [e]|, id)
    ensures IsAckFor(e, id) ==> AckBefore(log + [e], |log + [e]|, id)
  {
    var longer := log + [e];
    if AckBefore(log, to, id) {
      var i :| 0 <= i < to && IsAckFor(log[i], id);
      assert IsAckFor(longer[i], id);
    }
    if IsAckFor(e, id) {
      assert IsAckFor(longer[|log|], id);
    }
  }

  lemma AcksStay(t: TaskState, log: seq<Entry>, e: Entry)
    requires AcksOk(t, log) && !IsAck(e)
    requires IsOutcome(e) ==> OutcomeOf(e).taskId in t.completed
    ensures AcksOk(t, log + [e])
  {
    forall id | id in t.active || id in t.completed
      ensures AckBefore(log + [e], |log + [e]|, id) && AckBefore(log + [e], |log|, id)
    {
      AckBeforeStays(log, e, |log|, id);
    }
    forall i | 0 <= i < |log| && IsOutcome(log[i])
      ensures AckBefore(log + [e], i, OutcomeOf(log[i]).taskId)
    {
      AckBeforeStays(log, e, i, OutcomeOf(log[i]).taskId);
    }
  }

  lemma ProvenanceStays(bindings: map<Id, Option<Id>>, log: seq<Entry>, e: Entry)
    requires ProvenanceOk(bindings, log)
    requires IsOutcome(e) ==>
               OutcomeOf(e).taskId in bindings &&
               ResultOk(log, OutcomeOf(e).evidenceIds, OutcomeOf(e).result, bindings[OutcomeOf(e).taskId])
    ensures ProvenanceOk(bindings, log + [e])
  {
    hide ResultOk;
    var longer := log + [e];
    forall i | 0 <= i < |longer| && IsOutcome(longer[i])
      ensures OutcomeOf(longer[i]).taskId in bindings && CitesEarlier(longer, i, bindings[OutcomeOf(longer[i]).taskId])
    {
      assert longer[..i] == log[..i];
      if i < |log| {
        assert CitesEarlier(log, i, bindings[OutcomeOf(log[i]).taskId]);
      } else {
        assert log[..i] == log;
      }
    }
  }

  // Entries that are neither acknowledgements nor outcomes leave the ledger's picture intact.
  lemma LedgerAppend(t: TaskState, log: seq<Entry>, owed: map<Id, TaskOutcome>, e: Entry)
    requires LedgerOk(t, log, owed) && !IsOutcome(e) && !IsAck(e)
    ensures LedgerOk(t, log + [e], owed)
  {
    hide ProvenanceOk, ActiveOk, CompletedOk, LinksOk, OutcomesOk, AcksOk;
    ProvenanceStays(t.bindings, log, e);
    ActiveStays(t, log, e);
    CompletedStays(t, log, e);
    OutcomesStay(t, log, owed, e);
    AcksStay(t, log, e);
  }

  // Sending an owed outcome settles it.
  lemma LedgerSettles(t: TaskState, log: seq<Entry>, owed: map<Id, TaskOutcome>, e: Entry)
    requires LedgerOk(t, log, owed)
    requires IsOutcome(e) && OutcomeOf(e).taskId in owed && OutcomeOf(e) == owed[OutcomeOf(e).taskId]
    ensures LedgerOk(t, log + [e], owed - {OutcomeOf(e).taskId})
  {
    var o := OutcomeOf(e);
    assert OutcomeOk(t, o) && o.taskId in t.bindings &&
           ResultOk(log, o.evidenceIds, o.result, t.bindings[o.taskId]) by {
      hide ActiveOk, AcksOk, LinksOk, ResultOk, ProvenanceOk;
    }
    hide ActiveOk, CompletedOk, LinksOk, OutcomesOk, AcksOk, ProvenanceOk, ResultOk;
    ProvenanceStays(t.bindings, log, e);
    ActiveStays(t, log, e);
    CompletedStays(t, log, e);
    AcksStay(t, log, e);
    OutcomesSettle(t, log, owed, e);
  }

  lemma OutcomesSettle(t: TaskState, log: seq<Entry>, owed: map<Id, TaskOutcome>, e: Entry)
    requires OutcomesOk(t, log, owed)
    requires IsOutcome(e) && OutcomeOf(e).taskId in owed && OutcomeOf(e) == owed[OutcomeOf(e).taskId]
    ensures OutcomesOk(t, log + [e], owed - {OutcomeOf(e).taskId})
  {
    hide OutcomeOk;
    var less := owed - {OutcomeOf(e).taskId};
    var longer := log + [e];
    assert forall i :: 0 <= i < |log| ==> longer[i] == log[i];
    forall id | id in t.completed && id !in less
      ensures OutcomeSent(longer, id)
    {
      OutcomeSentStays(log, e, id);
    }
  }

  // ---------- ledger operations ----------

  // A change that keeps the completed tasks and their evidence.
  ghost predicate SameResults(t: TaskState, after: TaskState) {
    after.completed == t.completed && after.bindings == t.bindings &&
    forall id :: id in t.completed ==> EvidenceFor(after, id) == EvidenceFor(t, id)
  }

  lemma ResultsKept(t: TaskState, after: TaskState, log: seq<Entry>, owed: map<Id, TaskOutcome>)
    requires SameResults(t, after)
    ensures CompletedOk(t, log) ==> CompletedOk(after, log)
    ensures OutcomesOk(t, log, owed) ==> OutcomesOk(after, log, owed)
  {
  }

  // Admitting a task and acknowledging it.
  lemma LedgerAdmits(t: TaskState, log: seq<Entry>, request: TaskRequested, nowMs: nat, defaultMs: nat, e: Entry)
    requires LedgerOk(t, log, map[]) && !Rejects(t, request)
    requires IsAckFor(e, request.taskId)
    ensures LedgerOk(Admitted(t, request, nowMs, defaultMs), log + [e], map[])
  {
    var after := Admitted(t, request, nowMs, defaultMs);
    assert EvidenceFor(t, request.taskId) == [];
    assert LinksOk(after);
    hide CompletedOk, OutcomesOk, AcksOk, ProvenanceOk;
    ProvenanceStays(t.bindings, log, e);
    ActiveAdmits(t, log, request.taskId, after);
    hide ActiveOk, LinksOk;
    ResultsKept(t, after, log, map[]);
    ActiveStays(after, log, e);
    CompletedStays(after, log, e);
    OutcomesStay(after, log, map[], e);
    AcksAdmit(t, log, request.taskId, after, e);
  }

  lemma ActiveAdmits(t: TaskState, log: seq<Entry>, id: Id, after: TaskState)
    requires ActiveOk(t, log) && id !in t.completed && EvidenceFor(t, id) == []
    requires after == t.(active := after.active) && id in after.active
    requires after.active == t.active[id := after.active[id]]
    requires after.active[id].taskId == id && after.active[id].collected == map[]
    ensures ActiveOk(after, log)
  {
    forall x | x in after.active
      ensures RecordOk(after, log, x, after.active[x])
    {
      assert EvidenceFor(after, x) == EvidenceFor(t, x);
      if x != id {
        assert RecordOk(t, log, x, t.active[x]);
      }
    }
  }

  lemma AcksAdmit(t: TaskState, log: seq<Entry>, id: Id, after: TaskState, e: Entry)
    requires AcksOk(t, log) && id !in t.active && id !in t.completed && IsAckFor(e, id)
    requires after.active.Keys == t.active.Keys + {id} && after.completed == t.completed
    ensures AcksOk(after, log + [e])
  {
    forall x | x in after.active || x in after.completed
      ensures AckBefore(log + [e], |log + [e]|, x)
    {
      AckBeforeStays(log, e, |log|, x);
    }
    forall i | 0 <= i < |log| && IsOutcome(log[i])
      ensures AckBefore(log + [e], i, OutcomeOf(log[i]).taskId)
    {
      AckBeforeStays(log, e, i, OutcomeOf(log[i]).taskId);
    }
  }

  lemma AcksKept(t: TaskState, after: TaskState, log: seq<Entry>)
    requires AcksOk(t, log)
    requires after.active.Keys + after.completed.Keys == t.active.Keys + t.completed.Keys
    ensures AcksOk(after, log)
  {
    assert forall id :: id in after.active || id in after.completed <==> id in t.active.Keys + t.completed.Keys;
  }

  lemma LinksKept(t: TaskState, after: TaskState)
    requires LinksOk(t) && after.linksBySource == t.linksBySource && after.linksByTarget == t.linksByTarget
    requires after.active.Keys + after.completed.Keys == t.active.Keys + t.completed.Keys
    ensures LinksOk(after)
  {
    assert forall id :: id in after.active || id in after.completed <==> id in t.active.Keys + t.completed.Keys;
  }

  // Binding touches only tasks that have no evidence yet.
  lemma LedgerBinds(t: TaskState, log: seq<Entry>, g: Id)
    requires LedgerOk(t, log, map[])
    ensures LedgerOk(PendingBound(t, g), log, map[])
  {
    var after := PendingBound(t, g);
    assert after.active.Keys == t.active.Keys;
    hide CompletedOk, OutcomesOk, AcksOk, LinksOk, ActiveOk, ProvenanceOk;
    ResultsKept(t, after, log, map[]);
    AcksKept(t, after, log);
    LinksKept(t, after);
    ActiveBinds(t, log, g);
  }

  lemma ActiveBinds(t: TaskState, log: seq<Entry>, g: Id)
    requires ActiveOk(t, log)
    ensures ActiveOk(PendingBound(t, g), log)
  {
    var after := PendingBound(t, g);
    forall id | id in after.active
      ensures id !in after.completed && RecordOk(after, log, id, after.active[id])
    {
      assert RecordOk(t, log, id, t.active[id]);
      assert EvidenceFor(after, id) == EvidenceFor(t, id);
      assert forall e :: InBuckets(after.active[id], e) <==> InBuckets(t.active[id], e);
    }
  }

  // Resolving an active task makes its outcome owed.
  lemma LedgerResolves(t: TaskState, log: seq<Entry>, owed: map<Id, TaskOutcome>, id: Id, o: TaskOutcome)
    requires LedgerOk(t, log, owed) && id in t.active
    requires o.taskId == id && o.evidenceIds == EvidenceFor(t, id) && !o.summary.NoEvidence?
    requires o.result == Success ==> SuccessOk(log, EvidenceFor(t, id), t.active[id].generation)
    ensures LedgerOk(ResolvedOne(t, id, o.result), log, owed[id := o])
  {
    var after := ResolvedOne(t, id, o.result);
    hide LinksOk, AcksOk, OutcomesOk, SuccessOk;
    assert id !in t.completed && EvidenceOk(log, EvidenceFor(t, id), t.active[id].generation);
    assert id !in t.bindings;
    assert ProvenanceOk(after.bindings, log);
    hide CompletedOk, ProvenanceOk;
    hide ActiveOk, EvidenceOk;
    LinksKept(t, after);
    AcksKept(t, after, log);
    OutcomesResolve(t, log, owed, id, o);
    ActiveResolves(t, log, id, o.result);
    CompletedResolves(t, log, id, o.result);
  }

  lemma ActiveResolves(t: TaskState, log: seq<Entry>, id: Id, result: TaskResult)
    requires ActiveOk(t, log) && id in t.active
    ensures ActiveOk(ResolvedOne(t, id, result), log)
  {
    var after := ResolvedOne(t, id, result);
    forall x | x in after.active
      ensures x !in after.completed && RecordOk(after, log, x, after.active[x])
    {
      assert RecordOk(t, log, x, t.active[x]);
      assert EvidenceFor(after, x) == EvidenceFor(t, x);
    }
  }

  lemma CompletedResolves(t: TaskState, log: seq<Entry>, id: Id, result: TaskResult)
    requires CompletedOk(t, log) && id in t.active
    requires ResultOk(log, EvidenceFor(t, id), result, t.active[id].generation)
    ensures CompletedOk(ResolvedOne(t, id, result), log)
  {
    var after := ResolvedOne(t, id, result);
    hide ResultOk;
    forall x | x in after.completed
      ensures ResultOk(log, EvidenceFor(after, x), after.completed[x], after.bindings[x])
    {
      assert EvidenceFor(after, x) == EvidenceFor(t, x);
    }
  }

  lemma OutcomesResolve(t: TaskState, log: seq<Entry>, owed: map<Id, TaskOutcome>, id: Id, o: TaskOutcome)
    requires OutcomesOk(t, log, owed) && id in t.active && id !in t.completed
    requires o.taskId == id && o.evidenceIds == EvidenceFor(t, id) && !o.summary.NoEvidence?
    ensures OutcomesOk(ResolvedOne(t, id, o.result), log, owed[id := o])
  {
    var after := ResolvedOne(t, id, o.result);
    assert forall x :: EvidenceFor(after, x) == EvidenceFor(t, x);
    hide EvidenceFor;
    assert forall p: TaskOutcome :: OutcomeOk(t, p) ==> OutcomeOk(after, p) && p.taskId != id;
    assert OutcomeOk(after, o);
    hide OutcomeOk, ResolvedOne;
  }

  // Attaching a sent envelope to an active task of its generation, and linking it.
  function AttachedAndLinked(t: TaskState, id: Id, kind: EvidenceKind, evidence: Id): TaskState {
    EvidenceLinked(EvidenceAttached(t, id, kind, evidence), EvidenceLink(id, evidence, TaskProof, 1.0))
  }

  lemma LedgerAttaches(t: TaskState, log: seq<Entry>, owed: map<Id, TaskOutcome>, id: Id, kind: EvidenceKind,
                       evidence: Id)
    requires LedgerOk(t, log, owed) && Attaches(t, id, kind, evidence)
    requires t.active[id].generation.Some? && OnWire(log, evidence, t.active[id].generation.value)
    ensures LedgerOk(AttachedAndLinked(t, id, kind, evidence), log, owed)
    ensures evidence in EvidenceFor(AttachedAndLinked(t, id, kind, evidence), id)
  {
    var after := AttachedAndLinked(t, id, kind, evidence);
    hide LinksOk, OutcomesOk, AcksOk, CompletedOk, ProvenanceOk;
    assert id !in t.completed;
    hide ActiveOk;
    EvidenceGrows(t, id, kind, evidence);
    LinkShape(t, id, kind, evidence);
    assert after.active.Keys == t.active.Keys;
    hide AttachedAndLinked, EvidenceAttached;
    LinksAttach(t, id, kind, evidence);
    ResultsKept(t, after, log, owed);
    AcksKept(t, after, log);
    ActiveAttaches(t, log, id, kind, evidence);
  }

  // The evidence of `id` gains `evidence` unless it was there; no other task's evidence moves.
  lemma EvidenceGrows(t: TaskState, id: Id, kind: EvidenceKind, evidence: Id)
    requires LinksOk(t)
    ensures var after := AttachedAndLinked(t, id, kind, evidence);
            && (forall x :: x != id ==> EvidenceFor(after, x) == EvidenceFor(t, x))
            && EvidenceFor(after, id) ==
               if evidence in EvidenceFor(t, id) then EvidenceFor(t, id) else EvidenceFor(t, id) + [evidence]
  {
    var link := EvidenceLink(id, evidence, TaskProof, 1.0);
    var links := LinksOf(t.linksBySource, id);
    LinkShape(t, id, kind, evidence);
    hide AttachedAndLinked;
    if evidence in EvidenceFor(t, id) {
      var i :| 0 <= i < |links| && links[i].target == evidence;
      assert links[i] in links;
      assert links[i] == link;
    } else {
      assert forall i :: 0 <= i < |links| ==> links[i].target == EvidenceFor(t, id)[i];
      assert link !in links;
      assert Targets(links + [link]) == Targets(links) + [evidence];
    }
  }

  lemma LinkShape(t: TaskState, id: Id, kind: EvidenceKind, evidence: Id)
    ensures var link := EvidenceLink(id, evidence, TaskProof, 1.0);
            AttachedAndLinked(t, id, kind, evidence).linksBySource ==
              if Linked(t, link) then t.linksBySource
              else t.linksBySource[id := LinksOf(t.linksBySource, id) + [link]]
    ensures var link := EvidenceLink(id, evidence, TaskProof, 1.0);
            AttachedAndLinked(t, id, kind, evidence).linksByTarget ==
              if Linked(t, link) then t.linksByTarget
              else t.linksByTarget[evidence := LinksOf(t.linksByTarget, evidence) + [link]]
    ensures AttachedAndLinked(t, id, kind, evidence).active == EvidenceAttached(t, id, kind, evidence).active
    ensures AttachedAndLinked(t, id, kind, evidence).completed == t.completed
    ensures AttachedAndLinked(t, id, kind, evidence).bindings == t.bindings
  {
    var attached := EvidenceAttached(t, id, kind, evidence);
    assert attached == t.(active := attached.active);
    hide EvidenceAttached;
    var link := EvidenceLink(id, evidence, TaskProof, 1.0);
    var linked := EvidenceLinked(attached, link);
    assert linked == attached.(linksBySource := linked.linksBySource, linksByTarget := linked.linksByTarget);
  }

  lemma LinksAttach(t: TaskState, id: Id, kind: EvidenceKind, evidence: Id)
    requires LinksOk(t) && id in t.active
    ensures LinksOk(AttachedAndLinked(t, id, kind, evidence))
  {
    var after := AttachedAndLinked(t, id, kind, evidence);
    var link := EvidenceLink(id, evidence, TaskProof, 1.0);
    LinkShape(t, id, kind, evidence);
    assert after.active.Keys == t.active.Keys;
    hide AttachedAndLinked, EvidenceAttached;
    MirrorAttach(t, after, link);
    hide Mirrored;
    forall x | x in after.linksBySource
      ensures x in after.active || x in after.completed
      ensures forall l :: l in after.linksBySource[x] ==> l == EvidenceLink(x, l.target, TaskProof, 1.0)
    {
      if x == id && !Linked(t, link) {
        assert after.linksBySource[x] == LinksOf(t.linksBySource, id) + [link];
      } else {
        assert after.linksBySource[x] == t.linksBySource[x];
      }
    }
  }

  lemma MirrorAttach(t: TaskState, after: TaskState, link: EvidenceLink)
    requires Mirrored(t)
    requires after.linksBySource == if Linked(t, link) then t.linksBySource
                                    else t.linksBySource[link.source := LinksOf(t.linksBySource, link.source) + [link]]
    requires after.linksByTarget == if Linked(t, link) then t.linksByTarget
                                    else t.linksByTarget[link.target := LinksOf(t.linksByTarget, link.target) + [link]]
    ensures Mirrored(after)
  {
    if !Linked(t, link) {
      assert forall id, l :: l in LinksOf(after.linksBySource, id) <==>
        l in LinksOf(t.linksBySource, id) || (id == link.source && l == link);
      assert forall id, l :: l in LinksOf(after.linksByTarget, id) <==>
        l in LinksOf(t.linksByTarget, id) || (id == link.target && l == link);
    }
  }

  // What the two indexes answer: a task is listed for a piece of evidence exactly when the evidence
  // is listed for the task.
  lemma MirrorMeans(t: TaskState, id: Id, evidence: Id)
    requires Mirrored(t)
    ensures evidence in EvidenceFor(t, id) <==> id in TasksCiting(t, evidence)
  {
    var out, back := LinksOf(t.linksBySource, id), LinksOf(t.linksByTarget, evidence);
    if evidence in EvidenceFor(t, id) {
      var i :| 0 <= i < |out| && out[i].target == evidence;
      assert out[i] in out && out[i] in back;
      var j :| 0 <= j < |back| && back[j] == out[i];
      assert Sources(back)[j] == id;
    }
    if id in TasksCiting(t, evidence) {
      var j :| 0 <= j < |back| && back[j].source == id;
      assert back[j] in back && back[j] in out;
      var i :| 0 <= i < |out| && out[i] == back[j];
      assert Targets(out)[i] == evidence;
    }
  }

  lemma ActiveAttaches(t: TaskState, log: seq<Entry>, id: Id, kind: EvidenceKind, evidence: Id)
    requires ActiveOk(t, log) && Attaches(t, id, kind, evidence)
    requires t.active[id].generation.Some? && OnWire(log, evidence, t.active[id].generation.value)
    requires var after := AttachedAndLinked(t, id, kind, evidence);
             && (forall x :: x != id ==> EvidenceFor(after, x) == EvidenceFor(t, x))
             && EvidenceFor(after, id) ==
                if evidence in EvidenceFor(t, id) then EvidenceFor(t, id) else EvidenceFor(t, id) + [evidence]
    ensures ActiveOk(AttachedAndLinked(t, id, kind, evidence), log)
  {
    var after := AttachedAndLinked(t, id, kind, evidence);
    var record := t.active[id];
    var fuller := record.(collected := record.collected[kind := Bucket(record, kind) + [evidence]]);
    assert after.active == t.active[id := fuller] && after.completed == t.completed;
    assert RecordOk(t, log, id, record);
    hide AttachedAndLinked, EvidenceFor, EvidenceOk;
    RecordAttaches(t, after, log, id, record, kind, evidence);
    forall x | x in after.active && x != id
      ensures RecordOk(after, log, x, after.active[x])
    {
      assert RecordOk(t, log, x, t.active[x]);
    }
  }

  lemma RecordAttaches(t: TaskState, after: TaskState, log: seq<Entry>, id: Id, record: TaskRecord, kind: EvidenceKind,
                       evidence: Id)
    requires RecordOk(t, log, id, record) && record.generation.Some?
    requires OnWire(log, evidence, record.generation.value)
    requires EvidenceFor(after, id) ==
             if evidence in EvidenceFor(t, id) then EvidenceFor(t, id) else EvidenceFor(t, id) + [evidence]
    ensures RecordOk(after, log, id, record.(collected := record.collected[kind := Bucket(record, kind) + [evidence]]))
  {
    BucketsGrow(record, kind, evidence);
    hide EvidenceFor, InBuckets, OnWire;
  }

  lemma BucketsGrow(record: TaskRecord, kind: EvidenceKind, evidence: Id)
    ensures var fuller := record.(collected := record.collected[kind := Bucket(record, kind) + [evidence]]);
            forall e :: InBuckets(fuller, e) <==> InBuckets(record, e) || e == evidence
  {
    var fuller := record.(collected := record.collected[kind := Bucket(record, kind) + [evidence]]);
    forall e
      ensures InBuckets(fuller, e) <==> InBuckets(record, e) || e == evidence
    {
      if InBuckets(record, e) {
        var k :| k in record.collected && e in record.collected[k];
        assert e in fuller.collected[k];
      }
      if e == evidence {
        assert e in fuller.collected[kind];
      }
    }
  }
}
