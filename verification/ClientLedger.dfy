// The browser's side of the task ledger: the task rail and the evidence index that replayed
// envelopes are applied to.
module ClientLedger {
  import opened Protocol

  const DEFAULT_DEADLINE_MS: nat := 45_000
  const RAIL_LIMIT: nat := 50

  datatype Status = Pending | Acknowledged | Resolved(result: TaskResult)

  datatype TaskEntry = TaskEntry(
    id: Id, intent: string, status: Status, createdAtMs: nat,
    deadlineMs: Option<nat>, provider: Option<string>, warnings: seq<Warning>,
    summary: Option<Summary>, evidenceIds: seq<Id>, error: ErrorCode,
    acknowledgedAtMs: Option<nat>, resolvedAtMs: Option<nat>)

  function NewTask(id: Id, intent: string, nowMs: nat): TaskEntry {
    TaskEntry(id, intent, Pending, nowMs, None, None, [], None, [], NoError, None, None)
  }

  // The payloads as the client reads them: a status or result it does not know, or an empty id,
  // arrives as None.
  datatype LedgerMessage =
    | Ack(ackTask: Id, validStatus: bool, deadlineMs: Option<nat>, provider: Option<string>, warnings: seq<Warning>)
    | Outcome(outcomeTask: Id, result: Option<TaskResult>, summary: Summary, evidenceIds: seq<Id>, error: ErrorCode)
    | Link(source: Option<Id>, target: Option<Id>)
    | Unrelated

  datatype Rail = Rail(
    tasks: seq<TaskEntry>,
    evidenceIndex: map<Id, seq<Id>>,
    resolvedTaskIds: set<Id>,
    latencies: map<Id, int>,
    pendingSentAt: map<Id, nat>)

  const EMPTY_RAIL := Rail([], map[], {}, map[], map[])

  // ---------- applying one message ----------

  // The position of the first entry with this id, or the length of the rail.
  function Find(tasks: seq<TaskEntry>, id: Id): (i: nat)
    ensures i <= |tasks|
    ensures i < |tasks| ==> tasks[i].id == id
    ensures forall k :: 0 <= k < i ==> tasks[k].id != id
  {
    if tasks == [] || tasks[0].id == id then 0 else 1 + Find(tasks[1..], id)
  }

  predicate Known(c: Rail, id: Id) {
    Find(c.tasks, id) < |c.tasks|
  }

  function TaskAt(c: Rail, id: Id): TaskEntry
    requires Known(c, id)
  {
    c.tasks[Find(c.tasks, id)]
  }

  function Put(c: Rail, id: Id, entry: TaskEntry): seq<TaskEntry>
    requires Known(c, id)
  {
    c.tasks[Find(c.tasks, id) := entry]
  }

  predicate AckInert(c: Rail, m: LedgerMessage)
    requires m.Ack?
  {
    !Known(c, m.ackTask) || TaskAt(c, m.ackTask).status != Pending || !m.validStatus
  }

  function AckApplied(c: Rail, m: LedgerMessage, nowMs: nat): Rail
    requires m.Ack?
  {
    if AckInert(c, m) then c
    else
      var entry := TaskAt(c, m.ackTask).(
        status := Acknowledged,
        acknowledgedAtMs := Some(nowMs),
        deadlineMs := if m.deadlineMs.Some? then m.deadlineMs else Some(nowMs + DEFAULT_DEADLINE_MS),
        provider := m.provider,
        warnings := m.warnings);
      var timed := m.ackTask in c.pendingSentAt;
      c.(tasks := Put(c, m.ackTask, entry),
         latencies := if timed then c.latencies[m.ackTask := nowMs - c.pendingSentAt[m.ackTask]] else c.latencies,
         pendingSentAt := c.pendingSentAt - {m.ackTask})
  }

  predicate OutcomeInert(c: Rail, m: LedgerMessage)
    requires m.Outcome?
  {
    m.outcomeTask in c.resolvedTaskIds || !Known(c, m.outcomeTask) || m.result.None?
  }

  function CitersOf(index: map<Id, seq<Id>>, evidence: Id): seq<Id> {
    if evidence in index then index[evidence] else []
  }

  // `task` is listed under `evidence`, once.
  function Cited(index: map<Id, seq<Id>>, evidence: Id, task: Id): map<Id, seq<Id>> {
    var citers := CitersOf(index, evidence);
    index[evidence := if task in citers then citers else citers + [task]]
  }

  function CitedAll(index: map<Id, seq<Id>>, evidence: seq<Id>, task: Id): map<Id, seq<Id>> {
    if evidence == [] then index
    else Cited(CitedAll(index, evidence[..|evidence| - 1], task), evidence[|evidence| - 1], task)
  }

  function OutcomeApplied(c: Rail, m: LedgerMessage, nowMs: nat): Rail
    requires m.Outcome?
  {
    if OutcomeInert(c, m) then c
    else
      var entry := TaskAt(c, m.outcomeTask).(
        status := Resolved(m.result.value),
        summary := Some(m.summary),
        evidenceIds := m.evidenceIds,
        error := m.error,
        resolvedAtMs := Some(nowMs));
      c.(tasks := Put(c, m.outcomeTask, entry),
         resolvedTaskIds := c.resolvedTaskIds + {m.outcomeTask},
         evidenceIndex := CitedAll(c.evidenceIndex, m.evidenceIds, m.outcomeTask))
  }

  predicate LinkInert(c: Rail, m: LedgerMessage)
    requires m.Link?
  {
    m.source.None? || m.target.None? || m.source.value in CitersOf(c.evidenceIndex, m.target.value)
  }

  function LinkApplied(c: Rail, m: LedgerMessage): Rail
    requires m.Link?
  {
    if LinkInert(c, m) then c
    else
      var source, target := m.source.value, m.target.value;
      var indexed := c.(evidenceIndex := c.evidenceIndex[target := CitersOf(c.evidenceIndex, target) + [source]]);
      if Known(c, source) && target !in TaskAt(c, source).evidenceIds
      then
        var shown := TaskAt(c, source).(evidenceIds := TaskAt(c, source).evidenceIds + [target]);
        indexed.(tasks := Put(c, source, shown))
      else indexed
  }

  function Applied(c: Rail, m: LedgerMessage, nowMs: nat): Rail {
    match m
    case Ack(_, _, _, _, _) => AckApplied(c, m, nowMs)
    case Outcome(_, _, _, _, _) => OutcomeApplied(c, m, nowMs)
    case Link(_, _) => LinkApplied(c, m)
    case Unrelated => c
  }

  // JavaScript's `trim` removes white space and line ends: unlike Rust's, the byte order mark, and
  // not U+0085.
  predicate IsSpace(c: char) {
    var u := c as int;
    9 <= u <= 13 || u == 0x20 || u == 0xA0 || u == 0x1680 || 0x2000 <= u <= 0x200A ||
    u == 0x2028 || u == 0x2029 || u == 0x202F || u == 0x205F || u == 0x3000 || u == 0xFEFF
  }

  predicate Blank(s: string) {
    forall i :: 0 <= i < |s| ==> IsSpace(s[i])
  }

  datatype RequestAnswer = NoSession | BlankIntent | Asked(id: Id)

  // Without a session nothing is asked for; a blank intent throws.
  function AnswerTo(inSession: bool, id: Id, intent: string): RequestAnswer {
    if !inSession then NoSession else if Blank(intent) then BlankIntent else Asked(id)
  }

  // A local request goes to the top of the rail, which is then cut to its limit.
  function Requested(c: Rail, id: Id, intent: string, nowMs: nat): Rail {
    var tasks := [NewTask(id, intent, nowMs)] + c.tasks;
    c.(tasks := if |tasks| > RAIL_LIMIT then tasks[..RAIL_LIMIT] else tasks,
       pendingSentAt := c.pendingSentAt[id := nowMs])
  }

  // ---------- the rail in its own form ----------

  class ClientOrchestrator {
    var tasks: seq<TaskEntry>
    var evidenceIndex: map<Id, seq<Id>>
    var resolvedTaskIds: set<Id>
    var acknowledgementLatencies: map<Id, int>
    var pendingSentAt: map<Id, nat>

    ghost function State(): Rail
      reads this
    {
      Rail(tasks, evidenceIndex, resolvedTaskIds, acknowledgementLatencies, pendingSentAt)
    }

    constructor ()
      ensures State() == EMPTY_RAIL
    {
      tasks, evidenceIndex, resolvedTaskIds := [], map[], {};
      acknowledgementLatencies, pendingSentAt := map[], map[];
    }

    method FindTask(id: Id) returns (i: nat)
      ensures i == Find(tasks, id)
    {
      i := 0;
      while i < |tasks| && tasks[i].id != id
        invariant i <= |tasks|
        invariant forall k :: 0 <= k < i ==> tasks[k].id != id
      {
        i := i + 1;
      }
    }

    method RequestTask(inSession: bool, id: Id, intent: string, nowMs: nat) returns (answer: RequestAnswer)
      modifies this
      ensures answer == AnswerTo(inSession, id, intent)
      ensures State() == if answer.Asked? then Requested(old(State()), id, intent, nowMs) else old(State())
    {
      if !inSession {
        return NoSession;
      }
      if Blank(intent) {
        return BlankIntent;
      }
      tasks := [NewTask(id, intent, nowMs)] + tasks;
      pendingSentAt := pendingSentAt[id := nowMs];
      if |tasks| > RAIL_LIMIT {
        tasks := tasks[..RAIL_LIMIT];
      }
      answer := Asked(id);
    }

    method ApplyTaskAcknowledged(m: LedgerMessage, nowMs: nat) returns (applied: bool)
      requires m.Ack?
      modifies this
      ensures applied == !AckInert(old(State()), m)
      ensures State() == AckApplied(old(State()), m, nowMs)
    {
      var i := FindTask(m.ackTask);
      if i == |tasks| {
        return false;
      }
      if tasks[i].status != Pending {
        return false;
      }
      if !m.validStatus {
        return false;
      }
      var deadlineMs := if m.deadlineMs.Some? then m.deadlineMs else Some(nowMs + DEFAULT_DEADLINE_MS);
      tasks := tasks[i := tasks[i].(status := Acknowledged, acknowledgedAtMs := Some(nowMs), deadlineMs := deadlineMs,
                                    provider := m.provider, warnings := m.warnings)];
      if m.ackTask in pendingSentAt {
        acknowledgementLatencies := acknowledgementLatencies[m.ackTask := nowMs - pendingSentAt[m.ackTask]];
        pendingSentAt := pendingSentAt - {m.ackTask};
      }
      applied := true;
    }

    method ApplyTaskOutcome(m: LedgerMessage, nowMs: nat) returns (applied: bool)
      requires m.Outcome?
      modifies this
      ensures applied == !OutcomeInert(old(State()), m)
      ensures State() == OutcomeApplied(old(State()), m, nowMs)
    {
      if m.outcomeTask in resolvedTaskIds {
        return false;
      }
      var i := FindTask(m.outcomeTask);
      if i == |tasks| {
        return false;
      }
      if m.result.None? {
        return false;
      }
      tasks := tasks[i := tasks[i].(status := Resolved(m.result.value), summary := Some(m.summary),
                                    evidenceIds := m.evidenceIds, error := m.error, resolvedAtMs := Some(nowMs))];
      resolvedTaskIds := resolvedTaskIds + {m.outcomeTask};
      for k := 0 to |m.evidenceIds|
        invariant State() == old(State()).(tasks := tasks, resolvedTaskIds := resolvedTaskIds,
                                           evidenceIndex := evidenceIndex)
        invariant tasks == OutcomeApplied(old(State()), m, nowMs).tasks
        invariant resolvedTaskIds == old(resolvedTaskIds) + {m.outcomeTask}
        invariant evidenceIndex == CitedAll(old(evidenceIndex), m.evidenceIds[..k], m.outcomeTask)
      {
        assert m.evidenceIds[..k + 1][..k] == m.evidenceIds[..k];
        var list := if m.evidenceIds[k] in evidenceIndex then evidenceIndex[m.evidenceIds[k]] else [];
        if m.outcomeTask !in list {
          list := list + [m.outcomeTask];
        }
        evidenceIndex := evidenceIndex[m.evidenceIds[k] := list];
      }
      assert m.evidenceIds[..|m.evidenceIds|] == m.evidenceIds;
      applied := true;
    }

    method ApplyEvidenceLink(m: LedgerMessage) returns (applied: bool)
      requires m.Link?
      modifies this
      ensures applied == !LinkInert(old(State()), m)
      ensures State() == LinkApplied(old(State()), m)
    {
      if m.source.None? || m.target.None? {
        return false;
      }
      var source, target := m.source.value, m.target.value;
      var list := if target in evidenceIndex then evidenceIndex[target] else [];
      if source in list {
        return false;
      }
      evidenceIndex := evidenceIndex[target := list + [source]];
      var i := FindTask(source);
      if i < |tasks| && target !in tasks[i].evidenceIds {
        tasks := tasks[i := tasks[i].(evidenceIds := tasks[i].evidenceIds + [target])];
      }
      applied := true;
    }
  }

  // ---------- a message applied once is spent ----------

  // Applying `m` would change nothing.
  predicate Inert(c: Rail, m: LedgerMessage) {
    match m
    case Ack(_, _, _, _, _) => AckInert(c, m)
    case Outcome(_, _, _, _, _) => OutcomeInert(c, m)
    case Link(_, _) => LinkInert(c, m)
    case Unrelated => true
  }

  lemma InertIsNoOp(c: Rail, m: LedgerMessage, nowMs: nat)
    ensures Inert(c, m) ==> Applied(c, m, nowMs) == c
  {
  }

  // What applying any message preserves: who is on the rail, what has left Pending, what has been
  // resolved, who cites what.
  ghost predicate Advances(c: Rail, after: Rail) {
    && |after.tasks| == |c.tasks|
    && (forall i :: 0 <= i < |c.tasks| ==>
          after.tasks[i].id == c.tasks[i].id && (c.tasks[i].status != Pending ==> after.tasks[i].status != Pending))
    && c.resolvedTaskIds <= after.resolvedTaskIds
    && (forall e, t :: t in CitersOf(c.evidenceIndex, e) ==> t in CitersOf(after.evidenceIndex, e))
  }

  lemma {:induction false} CitedAllGrows(index: map<Id, seq<Id>>, evidence: seq<Id>, task: Id)
    ensures forall e, t :: t in CitersOf(index, e) ==> t in CitersOf(CitedAll(index, evidence, task), e)
  {
    if evidence != [] {
      CitedAllGrows(index, evidence[..|evidence| - 1], task);
    }
  }

  lemma AppliedAdvances(c: Rail, m: LedgerMessage, nowMs: nat)
    ensures Advances(c, Applied(c, m, nowMs))
  {
    if m.Outcome? {
      CitedAllGrows(c.evidenceIndex, m.evidenceIds, m.outcomeTask);
    }
  }

  lemma {:induction false} FindSame(tasks: seq<TaskEntry>, others: seq<TaskEntry>, id: Id)
    requires |tasks| == |others| && forall i :: 0 <= i < |tasks| ==> tasks[i].id == others[i].id
    ensures Find(tasks, id) == Find(others, id)
  {
  }

  lemma InertStays(c: Rail, after: Rail, m: LedgerMessage)
    requires Inert(c, m) && Advances(c, after)
    ensures Inert(after, m)
  {
    if m.Ack? {
      FindSame(c.tasks, after.tasks, m.ackTask);
    } else if m.Outcome? {
      FindSame(c.tasks, after.tasks, m.outcomeTask);
    }
  }

  lemma AppliedIsInert(c: Rail, m: LedgerMessage, nowMs: nat)
    ensures Inert(Applied(c, m, nowMs), m)
  {
    var after := Applied(c, m, nowMs);
    AppliedAdvances(c, m, nowMs);
    if m.Ack? {
      FindSame(c.tasks, after.tasks, m.ackTask);
    }
  }

  // The tasks a message speaks about.
  function Names(m: LedgerMessage): set<Id> {
    match m
    case Ack(id, _, _, _, _) => {id}
    case Outcome(id, _, _, _, _) => {id}
    case Link(_, _) => {}
    case Unrelated => {}
  }

  lemma {:induction false} FindUnique(tasks: seq<TaskEntry>, id: Id, i: nat)
    requires i < |tasks| && tasks[i].id == id && forall k :: 0 <= k < i ==> tasks[k].id != id
    ensures Find(tasks, id) == i
  {
  }

  lemma {:induction false} FindBelow(tasks: seq<TaskEntry>, top: TaskEntry, id: Id, n: nat)
    requires top.id != id && n <= |tasks| + 1
    ensures var rail := ([top] + tasks)[..n];
            var i := Find(rail, id);
            i < |rail| ==> i > 0 && Find(tasks, id) == i - 1 && i - 1 < |tasks| && rail[i] == tasks[i - 1]
  {
    var rail := ([top] + tasks)[..n];
    var i := Find(rail, id);
    if i < |rail| {
      assert forall k :: 0 <= k < |rail| - 1 ==> rail[k + 1] == tasks[k];
      assert i > 0 && tasks[i - 1] == rail[i];
      forall k | 0 <= k < i - 1 ensures tasks[k].id != id {
        assert rail[k + 1] == tasks[k];
      }
      FindUnique(tasks, id, i - 1);
    }
  }

  // A request for a task no earlier message names disturbs no spent message, even when it pushes
  // an old entry off the rail.
  lemma InertUnderRequest(c: Rail, m: LedgerMessage, id: Id, intent: string, nowMs: nat)
    requires Inert(c, m) && id !in Names(m)
    ensures Inert(Requested(c, id, intent, nowMs), m)
  {
    var after := Requested(c, id, intent, nowMs);
    var full := [NewTask(id, intent, nowMs)] + c.tasks;
    assert full[..|full|] == full;
    if m.Ack? {
      FindBelow(c.tasks, NewTask(id, intent, nowMs), m.ackTask, |after.tasks|);
    } else if m.Outcome? {
      FindBelow(c.tasks, NewTask(id, intent, nowMs), m.outcomeTask, |after.tasks|);
    }
  }

  // ---------- runs of the client ----------

  datatype ClientStep = Deliver(message: LedgerMessage, nowMs: nat) | Request(id: Id, intent: string, nowMs: nat)

  function After(c: Rail, steps: seq<ClientStep>): Rail {
    if steps == [] then c
    else
      var t := After(c, steps[..|steps| - 1]);
      match steps[|steps| - 1]
      case Deliver(m, nowMs) => Applied(t, m, nowMs)
      case Request(id, intent, nowMs) => Requested(t, id, intent, nowMs)
  }

  // Every message delivered along a run stays spent, provided later requests use ids it does not
  // name.
  lemma {:induction false} DeliveredIsInert(c: Rail, steps: seq<ClientStep>, k: nat)
    requires k < |steps| && steps[k].Deliver?
    requires forall i :: k < i < |steps| && steps[i].Request? ==> steps[i].id !in Names(steps[k].message)
    ensures Inert(After(c, steps), steps[k].message)
  {
    var front, last := steps[..|steps| - 1], steps[|steps| - 1];
    var t := After(c, front);
    var m := steps[k].message;
    if k == |steps| - 1 {
      AppliedIsInert(t, m, last.nowMs);
    } else {
      DeliveredIsInert(c, front, k);
      match last {
        case Deliver(other, nowMs) =>
          AppliedAdvances(t, other, nowMs);
          InertStays(t, Applied(t, other, nowMs), m);
        case Request(id, intent, nowMs) =>
          InertUnderRequest(t, m, id, intent, nowMs);
      }
    }
  }

  lemma {:induction false} AfterConcat(c: Rail, steps: seq<ClientStep>, more: seq<ClientStep>)
    ensures After(c, steps + more) == After(After(c, steps), more)
    decreases |more|
  {
    hide Applied, Requested;
    if more == [] {
      assert steps + more == steps;
    } else {
      AfterConcat(c, steps, more[..|more| - 1]);
      assert (steps + more)[..|steps + more| - 1] == steps + more[..|more| - 1];
    }
  }

  // Delivering spent messages again, at any time, changes nothing.
  lemma {:induction false} InertRunIsNoOp(c: Rail, steps: seq<ClientStep>)
    requires forall i :: 0 <= i < |steps| ==> steps[i].Deliver? && Inert(c, steps[i].message)
    ensures After(c, steps) == c
  {
    if steps != [] {
      InertRunIsNoOp(c, steps[..|steps| - 1]);
      InertIsNoOp(c, steps[|steps| - 1].message, steps[|steps| - 1].nowMs);
    }
  }
}
