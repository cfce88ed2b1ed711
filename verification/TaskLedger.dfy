// The gateway's task orchestrator: task ledger, evidence index and resume buffer. The first half
// gives the meaning of every operation on a value; the class below it is the in-place form.
module TaskLedger {
  import opened Protocol

  const RESUME_BUFFER_TTL_MS: nat := 30_000

  datatype TaskRecord = TaskRecord(
    taskId: Id, intent: string, deadlineMs: nat, generation: Option<Id>, collected: map<EvidenceKind, seq<Id>>)

  datatype BufferedEvent = BufferedEvent(eventId: Id, bufferedAtMs: nat, envelope: Envelope)

  // Two history variables: `bindings` is the generation each resolved task was bound to, `purged`
  // the sequences the resume buffer has dropped as too old.
  datatype TaskState = TaskState(
    active: map<Id, TaskRecord>,
    completed: map<Id, TaskResult>,
    bindings: map<Id, Option<Id>>,
    purged: set<nat>,
    bufferedById: map<Id, nat>,
    bufferedBySeq: map<nat, BufferedEvent>,
    linksBySource: map<Id, seq<EvidenceLink>>,
    linksByTarget: map<Id, seq<EvidenceLink>>)

  const EMPTY_LEDGER := TaskState(map[], map[], map[], {}, map[], map[], map[], map[])

  // ---------- enumerations of hash tables ----------

  ghost predicate NoDuplicates<T>(s: seq<T>) {
    forall i, j :: 0 <= i < j < |s| ==> s[i] != s[j]
  }

  // `ids` lists the set `s` in some order, each element once.
  ghost predicate Enumerates(ids: seq<Id>, s: set<Id>) {
    NoDuplicates(ids) && forall id :: id in ids <==> id in s
  }

  lemma {:induction false} EnumerationExists(s: set<Id>) returns (ids: seq<Id>)
    ensures Enumerates(ids, s)
  {
    if s == {} {
      ids := [];
    } else {
      var x :| x in s;
      var rest := EnumerationExists(s - {x});
      ids := rest + [x];
      assert forall id :: id in ids <==> id in rest || id == x;
    }
  }

  // The order in which a hash table hands out `s`: the hinted one when it is an order of `s`.
  ghost function Arrange(hint: seq<Id>, s: set<Id>): (ids: seq<Id>)
    ensures Enumerates(ids, s)
    ensures Enumerates(hint, s) ==> ids == hint
  {
    if Enumerates(hint, s) then hint
    else
      assert exists ids :: Enumerates(ids, s) by { var ids := EnumerationExists(s); }
      var ids :| Enumerates(ids, s);
      ids
  }

  // ---------- tasks ----------

  // The characters `trim` removes: Unicode's White_Space property.
  predicate IsSpace(c: char) {
    var u := c as int;
    9 <= u <= 13 || u == 0x20 || u == 0x85 || u == 0xA0 || u == 0x1680 || 0x2000 <= u <= 0x200A ||
    u == 0x2028 || u == 0x2029 || u == 0x202F || u == 0x205F || u == 0x3000
  }

  predicate Blank(s: string) {
    forall i :: 0 <= i < |s| ==> IsSpace(s[i])
  }

  predicate Rejects(t: TaskState, request: TaskRequested) {
    Blank(request.intent) || request.taskId in t.active || request.taskId in t.completed
  }

  function DeadlineFor(request: TaskRequested, nowMs: nat, defaultMs: nat): nat {
    match request.deadlineMs
    case Some(d) => d
    case None => SaturatingAdd(nowMs, if defaultMs == 0 then U32_MAX else defaultMs)
  }

  function WarningsFor(request: TaskRequested, provider: Option<string>): seq<Warning> {
    if Visual in request.evidenceRequired && provider.None? then [VisualUnavailable] else []
  }

  function Admitted(t: TaskState, request: TaskRequested, nowMs: nat, defaultMs: nat): TaskState {
    if Rejects(t, request) then t
    else
      var deadline := DeadlineFor(request, nowMs, defaultMs);
      t.(active := t.active[request.taskId :=
           TaskRecord(request.taskId, request.intent, deadline, request.generation, map[])])
  }

  function AckFor(request: TaskRequested, provider: Option<string>, nowMs: nat, defaultMs: nat): TaskAcknowledged {
    TaskAcknowledged(request.taskId, DeadlineFor(request, nowMs, defaultMs), provider, WarningsFor(request, provider))
  }

  function Bind(record: TaskRecord, g: Id): TaskRecord {
    if record.generation.None? then record.(generation := Some(g)) else record
  }

  function PendingBound(t: TaskState, g: Id): TaskState {
    t.(active := map id | id in t.active :: Bind(t.active[id], g))
  }

  function Unbound(t: TaskState): set<Id> {
    set id | id in t.active && t.active[id].generation.None?
  }

  function BoundTo(t: TaskState, g: Id): set<Id> {
    set id | id in t.active && t.active[id].generation == Some(g)
  }

  function Expired(t: TaskState, nowMs: nat): set<Id> {
    set id | id in t.active && t.active[id].deadlineMs <= nowMs
  }

  // ---------- evidence ----------

  function Bucket(record: TaskRecord, kind: EvidenceKind): seq<Id> {
    if kind in record.collected then record.collected[kind] else []
  }

  predicate Attaches(t: TaskState, id: Id, kind: EvidenceKind, evidence: Id) {
    id in t.active && evidence !in Bucket(t.active[id], kind)
  }

  function EvidenceAttached(t: TaskState, id: Id, kind: EvidenceKind, evidence: Id): TaskState {
    if !Attaches(t, id, kind, evidence) then t
    else
      var record := t.active[id];
      t.(active := t.active[id := record.(collected := record.collected[kind := Bucket(record, kind) + [evidence]])])
  }

  function LinksOf(index: map<Id, seq<EvidenceLink>>, id: Id): seq<EvidenceLink> {
    if id in index then index[id] else []
  }

  predicate Linked(t: TaskState, link: EvidenceLink) {
    link in LinksOf(t.linksBySource, link.source)
  }

  function EvidenceLinked(t: TaskState, link: EvidenceLink): TaskState {
    if Linked(t, link) then t
    else
      t.(linksBySource := t.linksBySource[link.source := LinksOf(t.linksBySource, link.source) + [link]],
         linksByTarget := t.linksByTarget[link.target := LinksOf(t.linksByTarget, link.target) + [link]])
  }

  function Targets(links: seq<EvidenceLink>): seq<Id> {
    seq(|links|, i requires 0 <= i < |links| => links[i].target)
  }

  function Sources(links: seq<EvidenceLink>): seq<Id> {
    seq(|links|, i requires 0 <= i < |links| => links[i].source)
  }

  function EvidenceFor(t: TaskState, id: Id): seq<Id> {
    Targets(LinksOf(t.linksBySource, id))
  }

  function TasksCiting(t: TaskState, evidence: Id): seq<Id> {
    Sources(LinksOf(t.linksByTarget, evidence))
  }

  // ---------- resolution ----------

  function ResolvedOne(t: TaskState, id: Id, result: TaskResult): TaskState {
    if id !in t.active then t
    else
      t.(active := t.active - {id},
         completed := t.completed[id := result],
         bindings := t.bindings[id := t.active[id].generation])
  }

  function Resolved(t: TaskState, ids: seq<Id>, result: TaskResult): TaskState {
    if ids == [] then t
    else ResolvedOne(Resolved(t, ids[..|ids| - 1], result), ids[|ids| - 1], result)
  }

  function TimedOutOutcome(t: TaskState, id: Id): TaskOutcome
    requires id in t.active
  {
    TaskOutcome(id, Failure, TimedOut(t.active[id].intent), EvidenceFor(t, id),
                DeadlineElapsed(t.active[id].deadlineMs))
  }

  function CancelledOutcome(t: TaskState, id: Id, reason: Option<string>): TaskOutcome
    requires id in t.active
  {
    TaskOutcome(id, Cancelled, CancelledTask(t.active[id].intent), EvidenceFor(t, id), ClientCancelled(reason))
  }

  function CompletedOutcome(t: TaskState, id: Id): TaskOutcome
    requires id in t.active
  {
    var evidence := EvidenceFor(t, id);
    var record := t.active[id];
    TaskOutcome(id, Success,
                if evidence == [] then NoEvidence(record.intent)
                else WithEvidence(record.intent, |evidence|, record.collected.Keys),
                evidence, NoError)
  }

  function TimedOutOutcomes(t: TaskState, ids: seq<Id>): seq<TaskOutcome>
    requires forall id :: id in ids ==> id in t.active
  {
    seq(|ids|, i requires 0 <= i < |ids| => TimedOutOutcome(t, ids[i]))
  }

  function CompletedOutcomes(t: TaskState, ids: seq<Id>): seq<TaskOutcome>
    requires forall id :: id in ids ==> id in t.active
  {
    seq(|ids|, i requires 0 <= i < |ids| => CompletedOutcome(t, ids[i]))
  }

  function TaskIds(outcomes: seq<TaskOutcome>): seq<Id> {
    seq(|outcomes|, i requires 0 <= i < |outcomes| => outcomes[i].taskId)
  }

  lemma ResolvedOneMore(t: TaskState, ids: seq<Id>, id: Id, result: TaskResult)
    ensures Resolved(t, ids + [id], result) == ResolvedOne(Resolved(t, ids, result), id, result)
  {
    assert (ids + [id])[..|ids|] == ids;
  }

  // Resolving a batch touches neither the evidence index nor the buffer.
  lemma {:induction false} ResolvedKeepsIndexes(t: TaskState, ids: seq<Id>, result: TaskResult)
    ensures Resolved(t, ids, result).linksBySource == t.linksBySource
    ensures Resolved(t, ids, result).linksByTarget == t.linksByTarget
    ensures Resolved(t, ids, result).bufferedById == t.bufferedById
    ensures Resolved(t, ids, result).bufferedBySeq == t.bufferedBySeq
    ensures Resolved(t, ids, result).purged == t.purged
  {
    if ids != [] {
      ResolvedKeepsIndexes(t, ids[..|ids| - 1], result);
    }
  }

  // A listed active task moves to `completed` with the given result and its binding on record;
  // everything else about task `id` stays.
  lemma {:induction false} ResolvedMovesTask(t: TaskState, ids: seq<Id>, result: TaskResult, id: Id)
    requires id in t.active && id in ids
    ensures var r := Resolved(t, ids, result);
            id !in r.active && id in r.completed && r.completed[id] == result &&
            id in r.bindings && r.bindings[id] == t.active[id].generation
  {
    var front, last := ids[..|ids| - 1], ids[|ids| - 1];
    assert id in front || id == last;
    if id in front {
      ResolvedMovesTask(t, front, result, id);
    } else {
      ResolvedKeepsTask(t, front, result, id);
    }
  }

  lemma {:induction false} ResolvedKeepsTask(t: TaskState, ids: seq<Id>, result: TaskResult, id: Id)
    requires id !in t.active || id !in ids
    ensures var r := Resolved(t, ids, result);
            && (id in r.active <==> id in t.active)
            && (id in t.active ==> r.active[id] == t.active[id])
            && (id in r.completed <==> id in t.completed)
            && (id in t.completed ==> r.completed[id] == t.completed[id])
            && (id in r.bindings <==> id in t.bindings)
            && (id in t.bindings ==> r.bindings[id] == t.bindings[id])
  {
    if ids != [] {
      ResolvedKeepsTask(t, ids[..|ids| - 1], result, id);
    }
  }

  // ---------- resume buffer ----------

  function Buffered(t: TaskState, sequence: nat, eventId: Id, envelope: Envelope, nowMs: nat): TaskState {
    if eventId in t.bufferedById then t
    else
      t.(bufferedById := t.bufferedById[eventId := sequence],
         bufferedBySeq := t.bufferedBySeq[sequence := BufferedEvent(eventId, nowMs, envelope)])
  }

  function Above(t: TaskState, cursor: nat): set<nat> {
    set q | q in t.bufferedBySeq && q > cursor
  }

  predicate Stale(t: TaskState, q: nat, nowMs: nat)
    requires q in t.bufferedBySeq
  {
    var at := t.bufferedBySeq[q].bufferedAtMs;
    nowMs > at && nowMs - at > RESUME_BUFFER_TTL_MS
  }

  lemma {:induction false} LeastExists(s: set<nat>) returns (least: nat)
    requires s != {}
    ensures least in s && forall x :: x in s ==> least <= x
  {
    var x :| x in s;
    if s == {x} {
      least := x;
    } else {
      var rest := s - {x};
      assert s == rest + {x};
      var m := LeastExists(rest);
      least := if x < m then x else m;
    }
  }

  ghost function Least(s: set<nat>): (least: nat)
    requires s != {}
    ensures least in s && forall x :: x in s ==> least <= x
  {
    assert exists m :: m in s && forall x :: x in s ==> m <= x by { var m := LeastExists(s); }
    var least :| least in s && forall x :: x in s ==> least <= x;
    least
  }

  // The elements of `s`, smallest first.
  ghost function Ascending(s: set<nat>): seq<nat> {
    if s == {} then [] else [Least(s)] + Ascending(s - {Least(s)})
  }

  ghost predicate StrictlyAscending(s: seq<nat>) {
    forall i, j :: 0 <= i < j < |s| ==> s[i] < s[j]
  }

  lemma {:induction false} AscendingIsSorted(s: set<nat>)
    ensures StrictlyAscending(Ascending(s))
    ensures forall q :: q in Ascending(s) <==> q in s
  {
    if s != {} {
      var least := Least(s);
      AscendingIsSorted(s - {least});
      var rest := Ascending(s - {least});
      assert Ascending(s) == [least] + rest;
      assert forall i :: 0 <= i < |rest| ==> rest[i] in rest;
      assert forall q :: q in [least] + rest <==> q == least || q in rest;
    }
  }

  function Live(t: TaskState, cursor: nat, nowMs: nat): set<nat> {
    set q | q in t.bufferedBySeq && q > cursor && !Stale(t, q, nowMs)
  }

  function Dead(t: TaskState, cursor: nat, nowMs: nat): set<nat> {
    set q | q in t.bufferedBySeq && q > cursor && Stale(t, q, nowMs)
  }

  function EnvelopesAt(t: TaskState, qs: seq<nat>): seq<Envelope>
    requires forall q :: q in qs ==> q in t.bufferedBySeq
  {
    seq(|qs|, i requires 0 <= i < |qs| => t.bufferedBySeq[qs[i]].envelope)
  }

  lemma EnvelopesAtOneMore(t: TaskState, qs: seq<nat>, q: nat)
    requires (forall r :: r in qs ==> r in t.bufferedBySeq) && q in t.bufferedBySeq
    ensures forall r :: r in qs + [q] ==> r in t.bufferedBySeq
    ensures EnvelopesAt(t, qs + [q]) == EnvelopesAt(t, qs) + [t.bufferedBySeq[q].envelope]
  {
  }

  ghost function Replayed(t: TaskState, cursor: nat, nowMs: nat): seq<Envelope> {
    AscendingIsSorted(Live(t, cursor, nowMs));
    EnvelopesAt(t, Ascending(Live(t, cursor, nowMs)))
  }

  // Drops a buffered sequence from both indexes.
  function ForgetOne(t: TaskState, q: nat): TaskState {
    if q !in t.bufferedBySeq then t
    else
      t.(purged := t.purged + {q},
         bufferedBySeq := t.bufferedBySeq - {q},
         bufferedById := t.bufferedById - {t.bufferedBySeq[q].eventId})
  }

  function Forget(t: TaskState, qs: seq<nat>): TaskState {
    if qs == [] then t else ForgetOne(Forget(t, qs[..|qs| - 1]), qs[|qs| - 1])
  }

  ghost function Purged(t: TaskState, cursor: nat, nowMs: nat): TaskState {
    Forget(t, Ascending(Dead(t, cursor, nowMs)))
  }

  lemma ScanClassifies(t: TaskState, cursor: nat, nowMs: nat)
    ensures Above(t, cursor) * Live(t, cursor, nowMs) == Live(t, cursor, nowMs)
    ensures Above(t, cursor) * Dead(t, cursor, nowMs) == Dead(t, cursor, nowMs)
    ensures forall q :: q in Above(t, cursor) ==>
              (q in Live(t, cursor, nowMs) <==> !Stale(t, q, nowMs)) &&
                (q in Dead(t, cursor, nowMs) <==> Stale(t, q, nowMs))
  {
  }

  lemma AscendingOfNothing(t: TaskState)
    ensures Ascending({}) == [] && EnvelopesAt(t, []) == []
  {
  }

  lemma AscendingStep(rest: set<nat>, part: set<nat>, q: nat)
    requires q in rest && forall r :: r in rest ==> q <= r
    ensures q in part ==> Ascending(rest * part) == [q] + Ascending((rest - {q}) * part)
    ensures q !in part ==> Ascending(rest * part) == Ascending((rest - {q}) * part)
  {
    if q in part {
      assert q in rest * part;
      assert Least(rest * part) == q;
      assert (rest - {q}) * part == rest * part - {q};
    } else {
      assert (rest - {q}) * part == rest * part;
    }
  }

  // A scan in ascending order that still has `rest` to visit: `sent` are the live sequences so far.
  ghost predicate Scanned(t: TaskState, live: set<nat>, dead: set<nat>, rest: set<nat>,
                          sent: seq<nat>, expired: seq<nat>, replay: seq<Envelope>)
  {
    && sent + Ascending(rest * live) == Ascending(live)
    && expired + Ascending(rest * dead) == Ascending(dead)
    && (forall q :: q in sent ==> q in t.bufferedBySeq)
    && replay == EnvelopesAt(t, sent)
  }

  lemma ScanStarts(t: TaskState, cursor: nat, nowMs: nat)
    ensures Scanned(t, Live(t, cursor, nowMs), Dead(t, cursor, nowMs), Above(t, cursor), [], [], [])
  {
    ScanClassifies(t, cursor, nowMs);
  }

  lemma ScanSteps(t: TaskState, live: set<nat>, dead: set<nat>, rest: set<nat>,
                  sent: seq<nat>, expired: seq<nat>, replay: seq<Envelope>, q: nat)
    requires Scanned(t, live, dead, rest, sent, expired, replay)
    requires q in t.bufferedBySeq && q in rest && forall r :: r in rest ==> q <= r
    requires q in live <==> q !in dead
    ensures if q in live
            then Scanned(t, live, dead, rest - {q}, sent + [q], expired, replay + [t.bufferedBySeq[q].envelope])
            else Scanned(t, live, dead, rest - {q}, sent, expired + [q], replay)
  {
    AscendingStep(rest, live, q);
    AscendingStep(rest, dead, q);
    EnvelopesAtOneMore(t, sent, q);
    hide Ascending, EnvelopesAt;
  }

  lemma ScanEnds(t: TaskState, cursor: nat, nowMs: nat, sent: seq<nat>, expired: seq<nat>, replay: seq<Envelope>)
    requires Scanned(t, Live(t, cursor, nowMs), Dead(t, cursor, nowMs), {}, sent, expired, replay)
    ensures replay == Replayed(t, cursor, nowMs) && expired == Ascending(Dead(t, cursor, nowMs))
  {
    AscendingOfNothing(t);
    assert {} * Live(t, cursor, nowMs) == {} && {} * Dead(t, cursor, nowMs) == {};
    assert sent + [] == sent && expired + [] == expired;
  }

  // ---------- the orchestrator ----------

  class TaskOrchestrator {
    var active: map<Id, TaskRecord>
    var completed: map<Id, TaskResult>
    ghost var bindings: map<Id, Option<Id>>
    ghost var purged: set<nat>
    var bufferedById: map<Id, nat>
    var bufferedBySeq: map<nat, BufferedEvent>
    var linksBySource: map<Id, seq<EvidenceLink>>
    var linksByTarget: map<Id, seq<EvidenceLink>>

    ghost function State(): TaskState
      reads this
    {
      TaskState(active, completed, bindings, purged, bufferedById, bufferedBySeq, linksBySource, linksByTarget)
    }

    constructor ()
      ensures State() == EMPTY_LEDGER
    {
      active, completed, bindings, purged := map[], map[], map[], {};
      bufferedById, bufferedBySeq := map[], map[];
      linksBySource, linksByTarget := map[], map[];
    }

    method Admit(request: TaskRequested, provider: Option<string>, nowMs: nat, defaultMs: nat)
      returns (ack: Option<TaskAcknowledged>)
      modifies this
      ensures State() == Admitted(old(State()), request, nowMs, defaultMs)
      ensures ack == if old(Rejects(State(), request)) then None else Some(AckFor(request, provider, nowMs, defaultMs))
    {
      if Blank(request.intent) {
        return None;
      }
      if request.taskId in active || request.taskId in completed {
        return None;
      }
      var deadlineMs: nat;
      match request.deadlineMs {
        case Some(d) =>
          deadlineMs := d;
        case None =>
          if defaultMs == 0 {
            deadlineMs := SaturatingAdd(nowMs, U32_MAX);
          } else {
            deadlineMs := SaturatingAdd(nowMs, defaultMs);
          }
      }
      var warnings: seq<Warning> := [];
      if Visual in request.evidenceRequired && provider.None? {
        warnings := warnings + [VisualUnavailable];
      }
      assert warnings == WarningsFor(request, provider);
      active := active[request.taskId :=
                       TaskRecord(request.taskId, request.intent, deadlineMs, request.generation, map[])];
      ack := Some(TaskAcknowledged(request.taskId, deadlineMs, provider, warnings));
    }

    method BindPendingToGeneration(g: Id) returns (bound: seq<Id>)
      modifies this
      ensures State() == PendingBound(old(State()), g)
      ensures Enumerates(bound, Unbound(old(State())))
    {
      bound := [];
      var rest := active.Keys;
      while rest != {}
        invariant rest <= old(active).Keys
        invariant State() == old(State()).(active := active)
        invariant active.Keys == old(active).Keys
        invariant forall id :: id in active ==>
                    active[id] == if id in rest then old(active)[id] else Bind(old(active)[id], g)
        invariant NoDuplicates(bound)
        invariant forall id :: id in bound <==>
                    id in old(active) && id !in rest && old(active)[id].generation.None?
        decreases rest
      {
        var id :| id in rest;
        rest := rest - {id};
        if active[id].generation.None? {
          active := active[id := active[id].(generation := Some(g))];
          bound := bound + [id];
        }
      }
    }

    method AttachEvidence(id: Id, kind: EvidenceKind, evidence: Id) returns (added: bool)
      modifies this
      ensures added == Attaches(old(State()), id, kind, evidence)
      ensures State() == EvidenceAttached(old(State()), id, kind, evidence)
    {
      if id !in active {
        return false;
      }
      var record := active[id];
      var bucket := if kind in record.collected then record.collected[kind] else [];
      if evidence in bucket {
        return false;
      }
      active := active[id := record.(collected := record.collected[kind := bucket + [evidence]])];
      added := true;
    }

    method LinkEvidence(link: EvidenceLink) returns (inserted: bool)
      modifies this
      ensures inserted == !Linked(old(State()), link)
      ensures State() == EvidenceLinked(old(State()), link)
    {
      var fromSource := if link.source in linksBySource then linksBySource[link.source] else [];
      if link in fromSource {
        return false;
      }
      linksBySource := linksBySource[link.source := fromSource + [link]];
      var toTarget := if link.target in linksByTarget then linksByTarget[link.target] else [];
      linksByTarget := linksByTarget[link.target := toTarget + [link]];
      inserted := true;
    }

    // The ids of the active tasks bound to `g`, in hash-table order.
    method TaskIdsForGeneration(g: Id) returns (ids: seq<Id>)
      ensures Enumerates(ids, BoundTo(State(), g))
    {
      ids := [];
      var rest := active.Keys;
      while rest != {}
        invariant rest <= active.Keys
        invariant NoDuplicates(ids)
        invariant forall id :: id in ids <==> id in active && id !in rest && active[id].generation == Some(g)
        decreases rest
      {
        var id :| id in rest;
        rest := rest - {id};
        if active[id].generation == Some(g) {
          ids := ids + [id];
        }
      }
    }

    // Moves one active task to `completed`, handing back its record and its evidence.
    method TakeTask(id: Id, result: TaskResult) returns (record: TaskRecord, evidence: seq<Id>)
      requires id in active
      modifies this`active, this`completed, this`bindings
      ensures record == old(active)[id] && evidence == EvidenceFor(State(), id)
      ensures State() == ResolvedOne(old(State()), id, result)
    {
      record := active[id];
      active := active - {id};
      completed := completed[id := result];
      bindings := bindings[id := record.generation];
      var links := if id in linksBySource then linksBySource[id] else [];
      evidence := Targets(links);
    }

    method ExpireTask(id: Id) returns (outcome: TaskOutcome)
      requires id in active
      modifies this
      ensures outcome == TimedOutOutcome(old(State()), id) && State() == ResolvedOne(old(State()), id, Failure)
    {
      var record, evidence := TakeTask(id, Failure);
      outcome := TaskOutcome(id, Failure, TimedOut(record.intent), evidence, DeadlineElapsed(record.deadlineMs));
    }

    method ElapsedTasks(nowMs: nat) returns (expired: seq<Id>)
      ensures Enumerates(expired, Expired(State(), nowMs))
    {
      expired := [];
      var rest := active.Keys;
      while rest != {}
        invariant rest <= active.Keys
        invariant NoDuplicates(expired)
        invariant forall id :: id in expired <==> id in active && id !in rest && active[id].deadlineMs <= nowMs
        decreases rest
      {
        var id :| id in rest;
        rest := rest - {id};
        if active[id].deadlineMs <= nowMs {
          expired := expired + [id];
        }
      }
    }

    method ExpireDeadlines(nowMs: nat) returns (outcomes: seq<TaskOutcome>)
      modifies this
      ensures Enumerates(TaskIds(outcomes), Expired(old(State()), nowMs))
      ensures outcomes == TimedOutOutcomes(old(State()), TaskIds(outcomes))
      ensures State() == Resolved(old(State()), TaskIds(outcomes), Failure)
    {
      var expired := ElapsedTasks(nowMs);
      outcomes := [];
      ghost var start := State();
      for i := 0 to |expired|
        invariant State() == Resolved(start, expired[..i], Failure)
        invariant forall id :: id in expired ==> id in start.active
        invariant forall id :: id in expired[i..] ==> id in active && active[id] == start.active[id]
        invariant linksBySource == start.linksBySource
        invariant outcomes == TimedOutOutcomes(start, expired[..i])
      {
        var id := expired[i];
        assert id in expired[i..];
        assert expired[..i + 1] == expired[..i] + [id];
        ResolvedOneMore(start, expired[..i], id, Failure);
        var outcome := ExpireTask(id);
        outcomes := outcomes + [outcome];
      }
      assert expired[..|expired|] == expired;
      assert TaskIds(outcomes) == expired;
    }

    method CancelTask(id: Id, reason: Option<string>) returns (outcome: Option<TaskOutcome>)
      modifies this
      ensures id !in old(active) ==> outcome == None && State() == old(State())
      ensures id in old(active) ==>
                outcome == Some(CancelledOutcome(old(State()), id, reason)) &&
                State() == ResolvedOne(old(State()), id, Cancelled)
    {
      if id !in active {
        return None;
      }
      var record, evidence := TakeTask(id, Cancelled);
      outcome := Some(TaskOutcome(id, Cancelled, CancelledTask(record.intent), evidence, ClientCancelled(reason)));
    }

    method CompleteTask(id: Id) returns (outcome: TaskOutcome)
      requires id in active
      modifies this
      ensures outcome == CompletedOutcome(old(State()), id) && State() == ResolvedOne(old(State()), id, Success)
    {
      var record, evidence := TakeTask(id, Success);
      var summary := if evidence == [] then NoEvidence(record.intent)
                     else WithEvidence(record.intent, |evidence|, record.collected.Keys);
      outcome := TaskOutcome(id, Success, summary, evidence, NoError);
    }

    method CompleteTasksForGeneration(g: Id) returns (outcomes: seq<TaskOutcome>)
      modifies this
      ensures Enumerates(TaskIds(outcomes), BoundTo(old(State()), g))
      ensures outcomes == CompletedOutcomes(old(State()), TaskIds(outcomes))
      ensures State() == Resolved(old(State()), TaskIds(outcomes), Success)
    {
      var done := TaskIdsForGeneration(g);
      outcomes := [];
      ghost var start := State();
      for i := 0 to |done|
        invariant State() == Resolved(start, done[..i], Success)
        invariant forall id :: id in done ==> id in start.active
        invariant forall id :: id in done[i..] ==> id in active && active[id] == start.active[id]
        invariant linksBySource == start.linksBySource
        invariant outcomes == CompletedOutcomes(start, done[..i])
      {
        var id := done[i];
        assert id in done[i..];
        assert done[..i + 1] == done[..i] + [id];
        ResolvedOneMore(start, done[..i], id, Success);
        var outcome := CompleteTask(id);
        outcomes := outcomes + [outcome];
      }
      assert done[..|done|] == done;
      assert TaskIds(outcomes) == done;
    }

    method BufferOutbound(sequence: nat, eventId: Id, envelope: Envelope, nowMs: nat) returns (added: bool)
      modifies this
      ensures added == (eventId !in old(bufferedById))
      ensures State() == Buffered(old(State()), sequence, eventId, envelope, nowMs)
    {
      if eventId in bufferedById {
        return false;
      }
      bufferedById := bufferedById[eventId := sequence];
      bufferedBySeq := bufferedBySeq[sequence := BufferedEvent(eventId, nowMs, envelope)];
      added := true;
    }

    // The key an ordered map hands out next.
    method FirstKey(keys: set<nat>) returns (q: nat)
      requires keys != {}
      ensures q in keys && forall r :: r in keys ==> q <= r
    {
      ghost var least := LeastExists(keys);
      q :| q in keys && forall r :: r in keys ==> q <= r;
    }

    // The range scan of `replay_after`: live envelopes and expired sequences above the cursor.
    method ScanAbove(lastSeen: nat, nowMs: nat) returns (replay: seq<Envelope>, expired: seq<nat>)
      ensures replay == Replayed(State(), lastSeen, nowMs)
      ensures expired == Ascending(Dead(State(), lastSeen, nowMs))
    {
      hide Scanned, Replayed, Ascending;
      ghost var t := State();
      ghost var live, dead := Live(t, lastSeen, nowMs), Dead(t, lastSeen, nowMs);
      ghost var sent: seq<nat> := [];
      expired, replay := [], [];
      var rest := set q | q in bufferedBySeq && q > lastSeen;
      ScanStarts(t, lastSeen, nowMs);
      ScanClassifies(t, lastSeen, nowMs);
      assert rest == Above(t, lastSeen);
      hide Live, Dead;
      while rest != {}
        invariant rest <= Above(t, lastSeen)
        invariant Scanned(t, live, dead, rest, sent, expired, replay)
        decreases rest
      {
        var q := FirstKey(rest);
        ScanSteps(t, live, dead, rest, sent, expired, replay, q);
        var entry := bufferedBySeq[q];
        if nowMs > entry.bufferedAtMs && nowMs - entry.bufferedAtMs > RESUME_BUFFER_TTL_MS {
          expired := expired + [q];
        } else {
          sent := sent + [q];
          replay := replay + [entry.envelope];
        }
        rest := rest - {q};
      }
      ScanEnds(t, lastSeen, nowMs, sent, expired, replay);
    }

    method ReplayAfter(lastSeen: nat, nowMs: nat) returns (replay: seq<Envelope>)
      modifies this
      ensures replay == Replayed(old(State()), lastSeen, nowMs)
      ensures State() == Purged(old(State()), lastSeen, nowMs)
    {
      var expired: seq<nat>;
      replay, expired := ScanAbove(lastSeen, nowMs);
      for i := 0 to |expired|
        invariant State() == Forget(old(State()), expired[..i])
      {
        var q := expired[i];
        assert expired[..i + 1][..i] == expired[..i];
        if q in bufferedBySeq {
          var entry := bufferedBySeq[q];
          purged := purged + {q};
          bufferedBySeq := bufferedBySeq - {q};
          bufferedById := bufferedById - {entry.eventId};
        }
      }
      assert expired[..|expired|] == expired;
    }
  }
}
