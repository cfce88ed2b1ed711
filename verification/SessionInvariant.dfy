// The session's invariant, kept by every step, and what one step may change.
module SessionInvariant {
  import opened Protocol
  import opened AnswerLease
  import opened TaskLedger
  import opened Session
  import opened WireInvariant
  import opened LedgerInvariant
  import opened BufferInvariant

  // Lease and active generation agree whenever both exist, and both were drawn.
  predicate LeaseOk(lease: LeaseState, active: Option<ActiveGeneration>, minted: nat) {
    && lease.version <= U64_MAX
    && (active.Some? ==> active.value.id < minted)
    && (lease.active.Some? ==> lease.active.value.generation < minted)
    && (active.Some? && lease.active.Some? ==> active.value.id == lease.active.value.generation)
    && (lease.active.Some? ==> !lease.turnOpen)
  }

  // Everything but the ledger.
  ghost predicate Core(s: SessionState) {
    && s.sequence <= U64_MAX
    && LeaseOk(s.lease, s.active, s.minted)
    && WireOk(s.log, s.sequence, s.minted)
    && ProviderOk(s.log, s.active, s.providerOpen, s.lease.version, s.minted)
    && BufferOk(s.tasks, s.log, s.sequence, s.minted)
  }

  // `owed` are the outcomes decided in this step and not yet sent; between steps there are none.
  ghost predicate Inv(s: SessionState, owed: map<Id, TaskOutcome>) {
    Core(s) && LedgerOk(s.tasks, s.log, owed)
  }

  // ---------- what may change ----------

  // `g` was drawn and is not active: its voice is gone.
  predicate Retired(s: SessionState, g: Id) {
    g < s.minted && !(s.active.Some? && s.active.value.id == g)
  }

  ghost predicate NoneTagged(log: seq<Entry>, from: nat, g: Id) {
    forall i :: from <= i < |log| ==> Tag(log[i]) != Some(g)
  }

  // Task `id` keeps its binding for good, and once completed its result and evidence too.
  ghost predicate TaskKept(t: TaskState, after: TaskState, id: Id) {
    && (id in t.completed ==>
          id in after.completed && after.completed[id] == t.completed[id] &&
          EvidenceFor(after, id) == EvidenceFor(t, id) &&
          (id in t.bindings ==> id in after.bindings && after.bindings[id] == t.bindings[id]))
    && (id in t.active && id !in t.completed ==>
          if id in after.completed
          then id in after.bindings && (t.active[id].generation.Some? ==> after.bindings[id] == t.active[id].generation)
          else id in after.active && (t.active[id].generation.Some? ==>
                                      after.active[id].generation == t.active[id].generation))
  }

  ghost predicate TasksKept(t: TaskState, after: TaskState) {
    t.purged <= after.purged && forall id :: TaskKept(t, after, id)
  }

  // `after` may follow `s`. The last clause is about one generation, kept apart so that it can be
  // carried through a step: if it is retired, nothing is tagged with it any more.
  ghost predicate Follows(s: SessionState, after: SessionState, g: Id) {
    && after.config == s.config
    && s.minted <= after.minted && s.sequence <= after.sequence && s.lease.version <= after.lease.version
    && |s.log| <= |after.log| && after.log[..|s.log|] == s.log
    && (after.providerOpen ==> s.providerOpen)
    && TasksKept(s.tasks, after.tasks)
    && (Retired(s, g) ==> Retired(after, g) && NoneTagged(after.log, |s.log|, g))
  }

  lemma TasksKeptTrans(a: TaskState, b: TaskState, c: TaskState)
    requires TasksKept(a, b) && TasksKept(b, c)
    ensures TasksKept(a, c)
  {
    forall id ensures TaskKept(a, c, id) {
      assert TaskKept(a, b, id) && TaskKept(b, c, id);
    }
  }

  lemma FollowsTrans(a: SessionState, b: SessionState, c: SessionState, g: Id)
    requires Follows(a, b, g) && Follows(b, c, g)
    ensures Follows(a, c, g)
  {
    TasksKeptTrans(a.tasks, b.tasks, c.tasks);
    hide TasksKept;
    assert c.log[..|a.log|] == c.log[..|b.log|][..|a.log|];
    if Retired(a, g) {
      forall i | |a.log| <= i < |c.log| ensures Tag(c.log[i]) != Some(g) {
        if i < |b.log| {
          assert c.log[i] == c.log[..|b.log|][i] == b.log[i];
        }
      }
    }
  }

  lemma FollowsRefl(s: SessionState, g: Id)
    ensures Follows(s, s, g)
  {
    assert s.log[..|s.log|] == s.log;
  }

  lemma FollowsAppend(s: SessionState, after: SessionState, more: seq<Entry>, g: Id)
    requires after.config == s.config && after.log == s.log + more
    requires s.minted <= after.minted && s.sequence <= after.sequence && s.lease.version <= after.lease.version
    requires after.providerOpen ==> s.providerOpen
    requires TasksKept(s.tasks, after.tasks)
    requires Retired(s, g) ==> Retired(after, g) && forall e :: e in more ==> Tag(e) != Some(g)
    ensures Follows(s, after, g)
  {
    hide TasksKept;
    assert forall i :: |s.log| <= i < |after.log| ==> after.log[i] == more[i - |s.log|];
  }

  lemma TasksKeptRefl(t: TaskState)
    ensures TasksKept(t, t)
  {
  }

  // ---------- the elementary effects ----------

  lemma DrawnOk(s: SessionState, owed: map<Id, TaskOutcome>, g: Id)
    requires Inv(s, owed)
    ensures Inv(Drawn(s), owed) && Follows(s, Drawn(s), g)
  {
    hide LedgerOk, WireOk, ProviderOk, BufferOk, TasksKept;
    WireDrawn(s.log, s.sequence, s.minted);
    ProviderLater(s.log, s.active, s.providerOpen, s.lease.version, s.minted, s.minted + 1);
    assert s.log + [] == s.log;
    BufferGrows(s.tasks, s.log, s.sequence, s.minted, [], NextSequence(s.sequence), s.minted + 1);
    TasksKeptRefl(s.tasks);
    FollowsAppend(s, Drawn(s), [], g);
  }

  lemma WireDrawn(log: seq<Entry>, sequence: nat, minted: nat)
    requires WireOk(log, sequence, minted) && sequence <= U64_MAX
    ensures WireOk(log, NextSequence(sequence), minted + 1)
  {
    hide ReplaysOk;
  }

  // A control message may be tagged with any drawn generation but `g` when `g` is retired.
  lemma SentOk(s: SessionState, owed: map<Id, TaskOutcome>, timeUs: nat, event: Event, tag: Option<Id>, g: Id)
    requires Inv(s, owed)
    requires tag.Some? ==> tag.value < s.minted
    requires Retired(s, g) ==> tag != Some(g)
    ensures Inv(Sent(s, timeUs, event, tag), owed) && Follows(s, Sent(s, timeUs, event, tag), g)
  {
    SentInv(s, owed, timeUs, event, tag);
    hide LedgerOk, WireOk, ProviderOk, BufferOk, TasksKept, Follows;
    TasksKeptRefl(s.tasks);
    FollowsAppend(s, Sent(s, timeUs, event, tag), [ToClient(Control(Draw(s, timeUs, event, tag)))], g);
  }

  lemma SentInv(s: SessionState, owed: map<Id, TaskOutcome>, timeUs: nat, event: Event, tag: Option<Id>)
    requires Inv(s, owed)
    requires tag.Some? ==> tag.value < s.minted
    ensures Inv(Sent(s, timeUs, event, tag), owed)
  {
    hide LedgerOk, WireOk, ProviderOk, BufferOk;
    var e := ToClient(Control(Draw(s, timeUs, event, tag)));
    WireAppend(s.log, s.sequence, s.minted, e);
    ProviderAppend(s.log, s.active, s.active, s.providerOpen, s.lease.version, s.minted, e);
    ProviderLater(s.log + [e], s.active, s.providerOpen, s.lease.version, s.minted, s.minted + 1);
    LedgerAppend(s.tasks, s.log, owed, e);
    BufferGrows(s.tasks, s.log, s.sequence, s.minted, [e], NextSequence(s.sequence), s.minted + 1);
  }

  lemma ProviderLater(log: seq<Entry>, active: Option<ActiveGeneration>, open: bool, version: nat, minted: nat,
                      minted': nat)
    requires ProviderOk(log, active, open, version, minted) && minted <= minted'
    ensures ProviderOk(log, active, open, version, minted')
  {
  }

  lemma ToldOk(s: SessionState, owed: map<Id, TaskOutcome>, input: ProviderInput, g: Id)
    requires Inv(s, owed) && !input.CommitResponse?
    ensures Inv(Told(s, input), owed) && Follows(s, Told(s, input), g)
  {
    FollowsRefl(s, g);
    if s.providerOpen {
      var e := ToProvider(input);
      hide LedgerOk, WireOk, ProviderOk, BufferOk, TasksKept, Follows;
      TasksKeptRefl(s.tasks);
      FollowsAppend(s, Told(s, input), [e], g);
      WireAppend(s.log, s.sequence, s.minted, e);
      ProviderAppend(s.log, s.active, s.active, s.providerOpen, s.lease.version, s.minted, e);
      LedgerAppend(s.tasks, s.log, owed, e);
      BufferGrows(s.tasks, s.log, s.sequence, s.minted, [e], s.sequence, s.minted);
    }
  }

  // Changing only the buffer half of the task state.
  lemma LedgerIgnoresBuffer(t: TaskState, after: TaskState, log: seq<Entry>, owed: map<Id, TaskOutcome>)
    requires LedgerOk(t, log, owed)
    requires after == t.(bufferedById := after.bufferedById, bufferedBySeq := after.bufferedBySeq,
                         purged := after.purged)
    ensures LedgerOk(after, log, owed)
  {
    hide ActiveOk, CompletedOk, OutcomesOk, AcksOk, ProvenanceOk, LinksOk, EvidenceFor;
    EvidenceIgnoresBuffer(t, after);
    ActiveIgnoresBuffer(t, after, log);
    ResultsKept(t, after, log, owed);
    AcksKept(t, after, log);
    LinksKept(t, after);
  }

  lemma EvidenceIgnoresBuffer(t: TaskState, after: TaskState)
    requires after.linksBySource == t.linksBySource
    ensures forall id :: EvidenceFor(after, id) == EvidenceFor(t, id)
  {
  }

  lemma ActiveIgnoresBuffer(t: TaskState, after: TaskState, log: seq<Entry>)
    requires ActiveOk(t, log) && after.active == t.active && after.completed == t.completed
    requires after.linksBySource == t.linksBySource
    ensures ActiveOk(after, log)
  {
    EvidenceIgnoresBuffer(t, after);
    hide EvidenceFor, EvidenceOk;
    forall id | id in after.active ensures RecordOk(after, log, id, after.active[id]) {
      assert RecordOk(t, log, id, t.active[id]);
    }
  }

  // A ledger envelope is buffered and sent; `s` already carries the ledger's own change, and the
  // ledger's picture is right once the entry is on the wire.
  lemma BufferedOk(s: SessionState, owed: map<Id, TaskOutcome>, timeUs: nat, event: Event, clockMs: nat, g: Id)
    requires Core(s)
    requires LedgerOk(s.tasks, s.log + [ToClient(RawText(Draw(s, timeUs, event, None), false))], owed)
    ensures Inv(SentAndBuffered(s, timeUs, event, clockMs), owed)
    ensures Follows(s, SentAndBuffered(s, timeUs, event, clockMs), g)
  {
    hide LedgerOk, WireOk, ProviderOk, BufferOk, TasksKept, Follows;
    var envelope := Draw(s, timeUs, event, None);
    var e := ToClient(RawText(envelope, false));
    var after := SentAndBuffered(s, timeUs, event, clockMs);
    WireAppend(s.log, s.sequence, s.minted, e);
    ProviderAppend(s.log, s.active, s.active, s.providerOpen, s.lease.version, s.minted, e);
    ProviderLater(s.log + [e], s.active, s.providerOpen, s.lease.version, s.minted, s.minted + 1);
    BufferSends(s.tasks, s.log, s.sequence, s.minted, envelope, clockMs);
    LedgerIgnoresBuffer(s.tasks, after.tasks, s.log + [e], owed);
    BufferedKeepsTasks(s.tasks, envelope.sequence, envelope.eventId, envelope, clockMs);
    FollowsAppend(s, after, [e], g);
  }

  lemma BufferedKeepsTasks(t: TaskState, sequence: nat, eventId: Id, envelope: Envelope, nowMs: nat)
    ensures TasksKept(t, Buffered(t, sequence, eventId, envelope, nowMs))
  {
  }

  // ---------- outcomes ----------

  lemma OutcomeSentOk(s: SessionState, owed: map<Id, TaskOutcome>, timeUs: nat, o: TaskOutcome, clockMs: nat, g: Id)
    requires Inv(s, owed) && o.taskId in owed && owed[o.taskId] == o
    ensures Inv(SentAndBuffered(s, timeUs, TaskOutcomeEvent(o), clockMs), owed - {o.taskId})
    ensures Follows(s, SentAndBuffered(s, timeUs, TaskOutcomeEvent(o), clockMs), g)
  {
    hide LedgerOk, WireOk, ProviderOk, BufferOk, Follows;
    LedgerSettles(s.tasks, s.log, owed, ToClient(RawText(Draw(s, timeUs, TaskOutcomeEvent(o), None), false)));
    BufferedOk(s, owed - {o.taskId}, timeUs, TaskOutcomeEvent(o), clockMs, g);
  }

  function Settled(outcomes: seq<TaskOutcome>): set<Id> {
    set o | o in outcomes :: o.taskId
  }

  lemma SettledSnoc(outcomes: seq<TaskOutcome>)
    requires outcomes != [] && NoDuplicates(TaskIds(outcomes))
    ensures var front, last := outcomes[..|outcomes| - 1], outcomes[|outcomes| - 1];
            && Settled(outcomes) == Settled(front) + {last.taskId} && last.taskId !in Settled(front)
            && NoDuplicates(TaskIds(front))
  {
    var front, last := outcomes[..|outcomes| - 1], outcomes[|outcomes| - 1];
    assert forall o :: o in outcomes <==> o in front || o == last;
    assert TaskIds(front) == TaskIds(outcomes)[..|front|];
    assert forall i :: 0 <= i < |front| ==> TaskIds(outcomes)[i] == front[i].taskId;
    assert TaskIds(outcomes)[|front|] == last.taskId;
  }

  lemma {:induction false} OutcomesSentOk(s: SessionState, owed: map<Id, TaskOutcome>, timeUs: nat,
                                          outcomes: seq<TaskOutcome>, clockMs: nat, g: Id)
    requires Inv(s, owed) && NoDuplicates(TaskIds(outcomes))
    requires forall o :: o in outcomes ==> o.taskId in owed && owed[o.taskId] == o
    ensures Inv(OutcomesSent(s, timeUs, outcomes, clockMs), owed - Settled(outcomes))
    ensures Follows(s, OutcomesSent(s, timeUs, outcomes, clockMs), g)
  {
    hide Inv, Follows;
    if outcomes == [] {
      assert owed - Settled(outcomes) == owed;
      FollowsRefl(s, g);
    } else {
      var front, last := outcomes[..|outcomes| - 1], outcomes[|outcomes| - 1];
      var t := OutcomesSent(s, timeUs, front, clockMs);
      SettledSnoc(outcomes);
      hide Settled, NoDuplicates, TaskIds;
      OutcomesSentOk(s, owed, timeUs, front, clockMs, g);
      assert last in outcomes;
      OutcomeSentOk(t, owed - Settled(front), timeUs, last, clockMs, g);
      FollowsTrans(s, t, OutcomesSent(s, timeUs, outcomes, clockMs), g);
      assert owed - Settled(front) - {last.taskId} == owed - (Settled(front) + {last.taskId});
    }
  }

  // ---------- evidence ----------

  // A change of the task half of the ledger alone.
  lemma TasksChange(s: SessionState, after: TaskState, g: Id)
    requires Core(s) && SameBuffer(s.tasks, after) && TasksKept(s.tasks, after)
    ensures Core(s.(tasks := after)) && Follows(s, s.(tasks := after), g)
  {
    hide TasksKept, WireOk, ProviderOk, BufferOk, Follows;
    BufferKept(s.tasks, after, s.log, s.sequence, s.minted);
    assert s.log + [] == s.log;
    FollowsAppend(s, s.(tasks := after), [], g);
  }

  lemma AttachKeepsTasks(t: TaskState, id: Id, kind: EvidenceKind, evidence: Id)
    requires LinksOk(t) && Attaches(t, id, kind, evidence) && id !in t.completed
    ensures TasksKept(t, AttachedAndLinked(t, id, kind, evidence))
    ensures SameBuffer(t, AttachedAndLinked(t, id, kind, evidence))
  {
    var after := AttachedAndLinked(t, id, kind, evidence);
    LinkShape(t, id, kind, evidence);
    EvidenceGrows(t, id, kind, evidence);
    assert after.purged == t.purged && SameBuffer(t, after);
    hide AttachedAndLinked;
    forall x ensures TaskKept(t, after, x) {
    }
  }

  lemma AttachedToOk(s: SessionState, owed: map<Id, TaskOutcome>, id: Id, kind: EvidenceKind, evidence: Id,
                     timeUs: nat, clockMs: nat, g: Id)
    requires Inv(s, owed)
    requires id in s.tasks.active ==>
               s.tasks.active[id].generation.Some? && OnWire(s.log, evidence, s.tasks.active[id].generation.value)
    ensures Inv(AttachedTo(s, id, kind, evidence, timeUs, clockMs), owed)
    ensures Follows(s, AttachedTo(s, id, kind, evidence, timeUs, clockMs), g)
    ensures id in s.tasks.active ==> evidence in EvidenceFor(AttachedTo(s, id, kind, evidence, timeUs, clockMs).tasks,
                                                             id)
  {
    hide Core, Follows;
    FollowsRefl(s, g);
    if Attaches(s.tasks, id, kind, evidence) {
      AttachNewOk(s, owed, id, kind, evidence, timeUs, clockMs, g);
    } else if id in s.tasks.active {
      assert RecordOk(s.tasks, s.log, id, s.tasks.active[id]);
      assert InBuckets(s.tasks.active[id], evidence);
    }
  }

  lemma ActiveNotCompleted(s: SessionState, owed: map<Id, TaskOutcome>, id: Id)
    requires Inv(s, owed) && id in s.tasks.active
    ensures id !in s.tasks.completed && LinksOk(s.tasks)
  {
    hide LinksOk, Core;
    assert RecordOk(s.tasks, s.log, id, s.tasks.active[id]);
  }

  lemma AttachNewOk(s: SessionState, owed: map<Id, TaskOutcome>, id: Id, kind: EvidenceKind, evidence: Id,
                    timeUs: nat, clockMs: nat, g: Id)
    requires Inv(s, owed) && Attaches(s.tasks, id, kind, evidence)
    requires s.tasks.active[id].generation.Some? && OnWire(s.log, evidence, s.tasks.active[id].generation.value)
    ensures Inv(AttachedTo(s, id, kind, evidence, timeUs, clockMs), owed)
    ensures Follows(s, AttachedTo(s, id, kind, evidence, timeUs, clockMs), g)
    ensures evidence in EvidenceFor(AttachedTo(s, id, kind, evidence, timeUs, clockMs).tasks, id)
  {
    hide LedgerOk, Core, Follows, TasksKept, LinksOk;
    var attached := EvidenceAttached(s.tasks, id, kind, evidence);
    var link := EvidenceLink(id, evidence, TaskProof, 1.0);
    var linked := AttachedAndLinked(s.tasks, id, kind, evidence);
    assert linked == EvidenceLinked(attached, link);
    ActiveNotCompleted(s, owed, id);
    hide EvidenceAttached;
    AttachKeepsTasks(s.tasks, id, kind, evidence);
    LedgerAttaches(s.tasks, s.log, owed, id, kind, evidence);
    hide AttachedAndLinked;
    TasksChange(s, linked, g);
    if !Linked(attached, link) {
      var mid := s.(tasks := linked);
      var event := EvidenceLinkEvent(link);
      LedgerAppend(linked, s.log, owed, ToClient(RawText(Draw(mid, timeUs, event, None), false)));
      BufferedOk(mid, owed, timeUs, event, clockMs, g);
      FollowsTrans(s, mid, SentAndBuffered(mid, timeUs, event, clockMs), g);
      BufferedKeepsEvidence(mid, timeUs, event, clockMs, id);
    }
  }

  lemma BufferedKeepsEvidence(s: SessionState, timeUs: nat, event: Event, clockMs: nat, id: Id)
    ensures EvidenceFor(SentAndBuffered(s, timeUs, event, clockMs).tasks, id) == EvidenceFor(s.tasks, id)
  {
  }

  lemma OnWirePrefix(log: seq<Entry>, longer: seq<Entry>, id: Id, g: Id)
    requires |log| <= |longer| && longer[..|log|] == log
    ensures OnWire(log, id, g) ==> OnWire(longer, id, g)
    ensures CompletionOnWire(log, id, g) ==> CompletionOnWire(longer, id, g)
  {
    assert forall i :: 0 <= i < |log| ==> longer[i] == log[i];
    if OnWire(log, id, g) {
      var i :| 0 <= i < |log| && Enveloped(log[i]) && EventIdOf(log[i]) == id && Tag(log[i]) == Some(g);
      assert Enveloped(longer[i]) && EventIdOf(longer[i]) == id && Tag(longer[i]) == Some(g);
    }
    if CompletionOnWire(log, id, g) {
      var i :| 0 <= i < |log| && IsCompletion(log[i], g) && log[i].message.envelope.eventId == id;
      assert IsCompletion(longer[i], g) && longer[i].message.envelope.eventId == id;
    }
  }

  // The same tasks are active with the same bindings, and no task has lost evidence.
  ghost predicate SameBindings(t: TaskState, after: TaskState) {
    && after.active.Keys == t.active.Keys
    && (forall id :: id in t.active ==> after.active[id].generation == t.active[id].generation)
    && (forall id, e :: e in EvidenceFor(t, id) ==> e in EvidenceFor(after, id))
  }

  lemma AttachedToBindings(s: SessionState, id: Id, kind: EvidenceKind, evidence: Id, timeUs: nat, clockMs: nat)
    ensures SameBindings(s.tasks, AttachedTo(s, id, kind, evidence, timeUs, clockMs).tasks)
    ensures AttachedTo(s, id, kind, evidence, timeUs, clockMs).active == s.active
  {
    var attached := EvidenceAttached(s.tasks, id, kind, evidence);
    AttachBindings(s.tasks, id, kind, evidence);
    hide EvidenceAttached;
    var link := EvidenceLink(id, evidence, TaskProof, 1.0);
    var mid := s.(tasks := EvidenceLinked(attached, link));
    LinkBindings(attached, link);
    hide EvidenceLinked, Linked;
    assert LinkSent(s.(tasks := attached), timeUs, link, clockMs).tasks ==
           if Linked(attached, link) then attached
           else SentAndBuffered(mid, timeUs, EvidenceLinkEvent(link), clockMs).tasks;
    forall x { BufferedKeepsEvidence(mid, timeUs, EvidenceLinkEvent(link), clockMs, x); }
  }

  lemma AttachBindings(t: TaskState, id: Id, kind: EvidenceKind, evidence: Id)
    ensures SameBindings(t, EvidenceAttached(t, id, kind, evidence))
  {
  }

  lemma LinkBindings(t: TaskState, link: EvidenceLink)
    ensures SameBindings(t, EvidenceLinked(t, link))
  {
    var links := LinksOf(t.linksBySource, link.source);
    assert Targets(links + [link]) == Targets(links) + [link.target];
  }

  lemma {:induction false} AttachedToAllOk(s: SessionState, owed: map<Id, TaskOutcome>, ids: seq<Id>, source: Id,
                                           kind: EvidenceKind,
                                           evidence: Id, timeUs: nat, clockMs: nat, g: Id)
    requires Inv(s, owed) && OnWire(s.log, evidence, source)
    requires forall id :: id in ids ==> id in BoundTo(s.tasks, source)
    ensures var after := AttachedToAll(s, ids, kind, evidence, timeUs, clockMs);
            && Inv(after, owed) && Follows(s, after, g)
            && SameBindings(s.tasks, after.tasks) && after.active == s.active
            && forall id :: id in ids ==> evidence in EvidenceFor(after.tasks, id)
  {
    hide Inv, Follows, TaskIds;
    if ids == [] {
      FollowsRefl(s, g);
    } else {
      var front, last := ids[..|ids| - 1], ids[|ids| - 1];
      assert ids == front + [last];
      assert last in ids;
      var t := AttachedToAll(s, front, kind, evidence, timeUs, clockMs);
      AttachedToAllOk(s, owed, front, source, kind, evidence, timeUs, clockMs, g);
      FollowsPrefix(s, t, g);
      OnWirePrefix(s.log, t.log, evidence, source);
      AttachedToOk(t, owed, last, kind, evidence, timeUs, clockMs, g);
      AttachedToBindings(t, last, kind, evidence, timeUs, clockMs);
      hide AttachedTo;
      FollowsTrans(s, t, AttachedTo(t, last, kind, evidence, timeUs, clockMs), g);
    }
  }

  lemma FollowsPrefix(s: SessionState, after: SessionState, g: Id)
    requires Follows(s, after, g)
    ensures |s.log| <= |after.log| && after.log[..|s.log|] == s.log
  {
  }

  // ---------- resolving a batch ----------

  function OwedMap(outcomes: seq<TaskOutcome>): map<Id, TaskOutcome> {
    if outcomes == [] then map[]
    else OwedMap(outcomes[..|outcomes| - 1])[outcomes[|outcomes| - 1].taskId := outcomes[|outcomes| - 1]]
  }

  lemma {:induction false} OwedMapHolds(outcomes: seq<TaskOutcome>)
    requires NoDuplicates(TaskIds(outcomes))
    ensures forall o :: o in outcomes ==> o.taskId in OwedMap(outcomes) && OwedMap(outcomes)[o.taskId] == o
    ensures OwedMap(outcomes).Keys == Settled(outcomes)
  {
    if outcomes != [] {
      var front, last := outcomes[..|outcomes| - 1], outcomes[|outcomes| - 1];
      SettledSnoc(outcomes);
      hide NoDuplicates, TaskIds, Settled;
      OwedMapHolds(front);
      assert forall o :: o in outcomes <==> o in front || o == last;
    }
  }

  // `o` is what resolving the active task `id` with `result` must report.
  ghost predicate Reports(t: TaskState, log: seq<Entry>, id: Id, result: TaskResult, o: TaskOutcome) {
    && id in t.active
    && o.taskId == id && o.result == result && o.evidenceIds == EvidenceFor(t, id) && !o.summary.NoEvidence?
    && (result == Success ==> SuccessOk(log, EvidenceFor(t, id), t.active[id].generation))
  }

  lemma {:induction false} ResolvedBatchOk(t: TaskState, log: seq<Entry>, ids: seq<Id>, result: TaskResult,
                                           outcomes: seq<TaskOutcome>)
    requires LedgerOk(t, log, map[]) && NoDuplicates(ids) && |outcomes| == |ids|
    requires forall i :: 0 <= i < |ids| ==> Reports(t, log, ids[i], result, outcomes[i])
    ensures LedgerOk(Resolved(t, ids, result), log, OwedMap(outcomes))
    ensures TasksKept(t, Resolved(t, ids, result)) && SameBuffer(t, Resolved(t, ids, result))
  {
    hide LedgerOk, TasksKept;
    if ids == [] {
      TasksKeptRefl(t);
    } else {
      var front, last := ids[..|ids| - 1], ids[|ids| - 1];
      var o := outcomes[|ids| - 1];
      ResolvedBatchOk(t, log, front, result, outcomes[..|ids| - 1]);
      var r := Resolved(t, front, result);
      assert Reports(t, log, last, result, o);
      assert last !in front;
      ResolvedKeepsTask(t, front, result, last);
      ResolvedKeepsIndexes(t, front, result);
      assert EvidenceFor(r, last) == EvidenceFor(t, last);
      LedgerResolves(r, log, OwedMap(outcomes[..|ids| - 1]), last, o);
      assert last !in r.completed && r.bindings.Keys == r.completed.Keys by {
        LedgerSeparates(r, log, OwedMap(outcomes[..|ids| - 1]), last);
      }
      ResolvedOneKeepsTasks(r, last, result);
      TasksKeptTrans(t, r, ResolvedOne(r, last, result));
    }
  }

  lemma LedgerSeparates(t: TaskState, log: seq<Entry>, owed: map<Id, TaskOutcome>, id: Id)
    requires LedgerOk(t, log, owed)
    ensures id in t.active ==> id !in t.completed
    ensures t.bindings.Keys == t.completed.Keys
  {
  }

  lemma ResolvedOneKeepsTasks(t: TaskState, id: Id, result: TaskResult)
    requires id in t.active && id !in t.completed && t.bindings.Keys == t.completed.Keys
    ensures TasksKept(t, ResolvedOne(t, id, result)) && SameBuffer(t, ResolvedOne(t, id, result))
  {
    var after := ResolvedOne(t, id, result);
    assert after.active == t.active - {id} && after.completed == t.completed[id := result];
    assert after.bindings == t.bindings[id := t.active[id].generation] && after.linksBySource == t.linksBySource;
    assert SameBuffer(t, after);
    hide ResolvedOne;
    forall x ensures TaskKept(t, after, x) {
      assert EvidenceFor(after, x) == EvidenceFor(t, x);
    }
  }
}
