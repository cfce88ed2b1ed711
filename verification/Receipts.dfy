// What the task rail shows, against what was asked for and received.
module Receipts {
  import opened Protocol
  import opened ClientLedger

  // ---------- where an entry comes from ----------

  // Step `k` asked for this task.
  predicate AskedAt(steps: seq<ClientStep>, k: nat, entry: TaskEntry) {
    k < |steps| && steps[k] == Request(entry.id, entry.intent, entry.createdAtMs)
  }

  // Step `k` delivered the acknowledgement this entry shows.
  predicate AckedAt(steps: seq<ClientStep>, k: nat, entry: TaskEntry) {
    && k < |steps| && steps[k].Deliver? && steps[k].message.Ack? && steps[k].message.validStatus
    && steps[k].message.ackTask == entry.id && entry.acknowledgedAtMs == Some(steps[k].nowMs)
    && entry.provider == steps[k].message.provider && entry.warnings == steps[k].message.warnings
    && entry.deadlineMs == (if steps[k].message.deadlineMs.Some? then steps[k].message.deadlineMs
                            else Some(steps[k].nowMs + 45_000))
  }

  // Step `k` delivered the outcome this entry shows, and what it cited is among what is shown.
  predicate OutcomeAt(steps: seq<ClientStep>, k: nat, entry: TaskEntry) {
    && k < |steps| && steps[k].Deliver? && steps[k].message.Outcome? && entry.status.Resolved?
    && steps[k].message.outcomeTask == entry.id && steps[k].message.result == Some(entry.status.result)
    && entry.summary == Some(steps[k].message.summary) && entry.error == steps[k].message.error
    && entry.resolvedAtMs == Some(steps[k].nowMs) && steps[k].message.evidenceIds <= entry.evidenceIds
  }

  ghost predicate Asked(steps: seq<ClientStep>, entry: TaskEntry) {
    exists k: nat :: AskedAt(steps, k, entry)
  }

  ghost predicate Acked(steps: seq<ClientStep>, entry: TaskEntry) {
    exists k: nat :: AckedAt(steps, k, entry)
  }

  ghost predicate Concluded(steps: seq<ClientStep>, entry: TaskEntry) {
    exists k: nat :: OutcomeAt(steps, k, entry)
  }

  // An entry was asked for, and is acknowledged or resolved as it was told.
  ghost predicate Received(steps: seq<ClientStep>, entry: TaskEntry) {
    && Asked(steps, entry)
    && (entry.status.Acknowledged? || entry.acknowledgedAtMs.Some? ==> Acked(steps, entry))
    && (entry.status.Resolved? ==> Concluded(steps, entry))
    && (entry.status.Pending? ==>
          entry == NewTask(entry.id, entry.intent, entry.createdAtMs).(evidenceIds := entry.evidenceIds))
  }

  ghost predicate RailReceived(steps: seq<ClientStep>, c: Rail) {
    forall entry :: entry in c.tasks ==> Received(steps, entry)
  }

  // What was received stays so.
  lemma ReceivedStays(steps: seq<ClientStep>, more: seq<ClientStep>, entry: TaskEntry)
    requires Received(steps, entry) && steps <= more
    ensures Received(more, entry)
  {
    var a: nat :| AskedAt(steps, a, entry);
    assert AskedAt(more, a, entry);
    if Acked(steps, entry) {
      var k: nat :| AckedAt(steps, k, entry);
      assert AckedAt(more, k, entry);
    }
    if Concluded(steps, entry) {
      var k: nat :| OutcomeAt(steps, k, entry);
      assert OutcomeAt(more, k, entry);
    }
  }

  // ---------- one step ----------

  lemma AckReceived(steps: seq<ClientStep>, c: Rail, m: LedgerMessage, nowMs: nat)
    requires RailReceived(steps, c) && m.Ack? && !AckInert(c, m)
    ensures RailReceived(steps + [Deliver(m, nowMs)], AckApplied(c, m, nowMs))
  {
    var all := steps + [Deliver(m, nowMs)];
    var after := AckApplied(c, m, nowMs);
    var earlier, entry := TaskAt(c, m.ackTask), TaskAt(c, m.ackTask).(
      status := Acknowledged, acknowledgedAtMs := Some(nowMs),
      deadlineMs := if m.deadlineMs.Some? then m.deadlineMs else Some(nowMs + DEFAULT_DEADLINE_MS),
      provider := m.provider, warnings := m.warnings);
    assert earlier in c.tasks;
    assert AckedAt(all, |steps|, entry);
    AskedSame(steps, all, earlier, entry);
    hide Asked, AckedAt;
    RestReceived(steps, all, c, after, m.ackTask, entry);
  }

  lemma AskedSame(steps: seq<ClientStep>, more: seq<ClientStep>, earlier: TaskEntry, entry: TaskEntry)
    requires Received(steps, earlier) && steps <= more
    requires entry.id == earlier.id && entry.intent == earlier.intent && entry.createdAtMs == earlier.createdAtMs
    ensures Asked(more, entry)
  {
    var a: nat :| AskedAt(steps, a, earlier);
    assert AskedAt(more, a, entry);
  }

  // One entry is replaced by one that is received, and the others stay.
  lemma RestReceived(steps: seq<ClientStep>, all: seq<ClientStep>, c: Rail, after: Rail, id: Id, entry: TaskEntry)
    requires RailReceived(steps, c) && steps <= all && Known(c, id)
    requires after.tasks == Put(c, id, entry) && Received(all, entry)
    ensures RailReceived(all, after)
  {
    hide Received;
    forall e | e in after.tasks
      ensures Received(all, e)
    {
      if e != entry {
        assert e in c.tasks;
        ReceivedStays(steps, all, e);
      }
    }
  }

  lemma OutcomeReceived(steps: seq<ClientStep>, c: Rail, m: LedgerMessage, nowMs: nat)
    requires RailReceived(steps, c) && m.Outcome? && !OutcomeInert(c, m)
    ensures RailReceived(steps + [Deliver(m, nowMs)], OutcomeApplied(c, m, nowMs))
  {
    var all := steps + [Deliver(m, nowMs)];
    var after := OutcomeApplied(c, m, nowMs);
    var earlier, entry := TaskAt(c, m.outcomeTask), TaskAt(c, m.outcomeTask).(
      status := Resolved(m.result.value), summary := Some(m.summary), evidenceIds := m.evidenceIds, error := m.error,
      resolvedAtMs := Some(nowMs));
    assert earlier in c.tasks;
    assert OutcomeAt(all, |steps|, entry);
    AskedSame(steps, all, earlier, entry);
    AckedSame(steps, all, earlier, entry);
    hide Asked, OutcomeAt, Acked, CitedAll;
    RestReceived(steps, all, c, after, m.outcomeTask, entry);
  }

  lemma AckedSame(steps: seq<ClientStep>, more: seq<ClientStep>, earlier: TaskEntry, entry: TaskEntry)
    requires Received(steps, earlier) && steps <= more
    requires entry.id == earlier.id && entry.provider == earlier.provider
    requires entry.acknowledgedAtMs == earlier.acknowledgedAtMs
    requires entry.warnings == earlier.warnings && entry.deadlineMs == earlier.deadlineMs
    ensures earlier.acknowledgedAtMs.Some? ==> Acked(more, entry)
  {
    if earlier.acknowledgedAtMs.Some? {
      var k: nat :| AckedAt(steps, k, earlier);
      assert AckedAt(more, k, entry);
    }
  }

  lemma LinkReceived(steps: seq<ClientStep>, c: Rail, m: LedgerMessage, nowMs: nat)
    requires RailReceived(steps, c) && m.Link? && !LinkInert(c, m)
    ensures RailReceived(steps + [Deliver(m, nowMs)], LinkApplied(c, m))
  {
    var all := steps + [Deliver(m, nowMs)];
    var after := LinkApplied(c, m);
    var source, target := m.source.value, m.target.value;
    if Known(c, source) && target !in TaskAt(c, source).evidenceIds {
      var earlier := TaskAt(c, source);
      var entry := earlier.(evidenceIds := earlier.evidenceIds + [target]);
      assert earlier in c.tasks;
      AskedSame(steps, all, earlier, entry);
      AckedSame(steps, all, earlier, entry);
      ConcludedSame(steps, all, earlier, entry);
      hide Asked, Acked, Concluded;
      RestReceived(steps, all, c, after, source, entry);
    } else {
      SameRail(steps, all, c, after);
    }
  }

  lemma ConcludedSame(steps: seq<ClientStep>, more: seq<ClientStep>, earlier: TaskEntry, entry: TaskEntry)
    requires Received(steps, earlier) && steps <= more && earlier.evidenceIds <= entry.evidenceIds
    requires entry == earlier.(evidenceIds := entry.evidenceIds)
    ensures earlier.status.Resolved? ==> Concluded(more, entry)
  {
    if earlier.status.Resolved? {
      var k: nat :| OutcomeAt(steps, k, earlier);
      assert OutcomeAt(more, k, entry);
    }
  }

  lemma SameRail(steps: seq<ClientStep>, all: seq<ClientStep>, c: Rail, after: Rail)
    requires RailReceived(steps, c) && steps <= all && forall e :: e in after.tasks ==> e in c.tasks
    ensures RailReceived(all, after)
  {
    hide Received;
    forall e | e in after.tasks
      ensures Received(all, e)
    {
      ReceivedStays(steps, all, e);
    }
  }

  lemma RequestReceived(steps: seq<ClientStep>, c: Rail, id: Id, intent: string, nowMs: nat)
    requires RailReceived(steps, c)
    ensures RailReceived(steps + [Request(id, intent, nowMs)], Requested(c, id, intent, nowMs))
  {
    var all := steps + [Request(id, intent, nowMs)];
    var entry := NewTask(id, intent, nowMs);
    var after := Requested(c, id, intent, nowMs);
    assert AskedAt(all, |steps|, entry);
    assert Received(all, entry);
    hide Received;
    forall e | e in after.tasks
      ensures Received(all, e)
    {
      assert e == entry || e in c.tasks;
      if e in c.tasks {
        ReceivedStays(steps, all, e);
      }
    }
  }

  // In every run of the client each entry on the rail was asked for; it shows an acknowledgement that
  // was received for it, with its provider, warnings and deadline, or is shown pending and untouched;
  // and it shows a result, summary and error that were received for it together.
  lemma {:induction false} RailShowsReceived(steps: seq<ClientStep>)
    ensures RailReceived(steps, After(EMPTY_RAIL, steps))
  {
    if steps != [] {
      var front, last := steps[..|steps| - 1], steps[|steps| - 1];
      var c := After(EMPTY_RAIL, front);
      RailShowsReceived(front);
      assert front + [last] == steps;
      hide RailReceived, AckApplied, OutcomeApplied, LinkApplied, Requested, Inert;
      match last {
        case Request(id, intent, nowMs) => RequestReceived(front, c, id, intent, nowMs);
        case Deliver(m, nowMs) => DeliveryReceived(front, c, m, nowMs);
      }
    }
  }

  lemma DeliveryReceived(steps: seq<ClientStep>, c: Rail, m: LedgerMessage, nowMs: nat)
    requires RailReceived(steps, c)
    ensures RailReceived(steps + [Deliver(m, nowMs)], Applied(c, m, nowMs))
  {
    hide Received;
    if Inert(c, m) {
      InertIsNoOp(c, m, nowMs);
      SameRail(steps, steps + [Deliver(m, nowMs)], c, c);
    } else {
      match m {
        case Ack(_, _, _, _, _) => AckReceived(steps, c, m, nowMs);
        case Outcome(_, _, _, _, _) => OutcomeReceived(steps, c, m, nowMs);
        case Link(_, _) => LinkReceived(steps, c, m, nowMs);
      }
    }
  }

  // ---------- what is received is shown ----------

  lemma {:induction false} CitedAllCites(index: map<Id, seq<Id>>, evidence: seq<Id>, task: Id, e: Id)
    ensures task in CitersOf(CitedAll(index, evidence, task), e) <==> task in CitersOf(index, e) || e in evidence
  {
    if evidence != [] {
      CitedAllCites(index, evidence[..|evidence| - 1], task, e);
    }
  }

  // The first outcome received for a task on the rail that has none yet is the one shown, and makes the
  // task findable by everything it cites.
  lemma OutcomeIsShown(c: Rail, m: LedgerMessage, nowMs: nat)
    requires m.Outcome? && m.result.Some? && m.outcomeTask !in c.resolvedTaskIds
    requires exists i :: 0 <= i < |c.tasks| && c.tasks[i].id == m.outcomeTask
    ensures var after := Applied(c, m, nowMs);
            && m.outcomeTask in after.resolvedTaskIds
            && (exists i :: 0 <= i < |after.tasks| && after.tasks[i].id == m.outcomeTask &&
                  after.tasks[i].status == Resolved(m.result.value) && after.tasks[i].summary == Some(m.summary) &&
                  after.tasks[i].error == m.error && after.tasks[i].evidenceIds == m.evidenceIds)
            && forall e :: e in m.evidenceIds ==> m.outcomeTask in CitersOf(after.evidenceIndex, e)
  {
    var i :| 0 <= i < |c.tasks| && c.tasks[i].id == m.outcomeTask;
    var k := Find(c.tasks, m.outcomeTask);
    assert k <= i;
    forall e | e in m.evidenceIds
      ensures m.outcomeTask in CitersOf(Applied(c, m, nowMs).evidenceIndex, e)
    {
      CitedAllCites(c.evidenceIndex, m.evidenceIds, m.outcomeTask, e);
    }
    assert Applied(c, m, nowMs).tasks[k].id == m.outcomeTask;
  }

  // An acknowledgement of a pending task is shown, and its latency is the time since the request.
  lemma AckIsShown(c: Rail, m: LedgerMessage, nowMs: nat, i: nat)
    requires m.Ack? && m.validStatus && i < |c.tasks| && c.tasks[i].id == m.ackTask && c.tasks[i].status == Pending
    requires forall k :: 0 <= k < i ==> c.tasks[k].id != m.ackTask
    ensures var after := Applied(c, m, nowMs);
            && |after.tasks| == |c.tasks| && after.tasks[i].status == Acknowledged
            && (m.ackTask in c.pendingSentAt ==>
                  m.ackTask in after.latencies && after.latencies[m.ackTask] == nowMs - c.pendingSentAt[m.ackTask])
            && m.ackTask !in after.pendingSentAt
  {
    FindUnique(c.tasks, m.ackTask, i);
  }

  // ---------- the rail's order ----------

  // The ids asked for, newest first.
  function Requests(steps: seq<ClientStep>): seq<Id> {
    if steps == [] then []
    else
      var last := steps[|steps| - 1];
      (if last.Request? then [last.id] else []) + Requests(steps[..|steps| - 1])
  }

  lemma AppliedKeepsIds(c: Rail, m: LedgerMessage, nowMs: nat)
    ensures var after := Applied(c, m, nowMs);
            |after.tasks| == |c.tasks| && forall i :: 0 <= i < |c.tasks| ==> after.tasks[i].id == c.tasks[i].id
  {
    AppliedAdvances(c, m, nowMs);
    hide Applied;
  }

  // The rail lists the latest fifty requests, newest first, whatever is delivered in between.
  lemma {:induction false} RailIsLatest(steps: seq<ClientStep>)
    ensures var tasks, ids := After(EMPTY_RAIL, steps).tasks, Requests(steps);
            && |tasks| == (if |ids| < 50 then |ids| else 50)
            && forall i :: 0 <= i < |tasks| ==> tasks[i].id == ids[i]
  {
    if steps != [] {
      var front, last := steps[..|steps| - 1], steps[|steps| - 1];
      RailIsLatest(front);
      if last.Deliver? {
        AppliedKeepsIds(After(EMPTY_RAIL, front), last.message, last.nowMs);
        hide Applied;
        assert Requests(steps) == Requests(front);
      }
    }
  }
}
